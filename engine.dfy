/**
 * The SIMPLESEM execution engine shared by `eval_code` (src/vm.c) and
 * `evalCode` (src/eval.c), as pure functions of the machine state.
 *
 * `Exec` is one trip round the engine's `for (;;)` loop: fetch the next
 * instruction, then run its opcode.  `RunFrom` repeats it until a trip ends
 * the loop (HALT, a step-mode suspension or a fault).  The class in
 * machine.dfy performs the same steps on arrays and is proved equal to these
 * functions.
 */
module Engine {
  import opened Int32
  import opened Flags
  import opened Bytecode
  import opened Wrappers

  /** What converting one line of program input with `strtol` gives. */
  datatype Literal =
    | Number(value: int)       // the `long` value; the C code keeps its low 32 bits
    | RangeError               // errno == ERANGE
    | TrailingJunk(c: char)    // *ep != 0: the first character after the number

  /** What the WRITE opcodes send to standard output. */
  datatype Out = OutInt(n: i32) | OutStr(s: string) | Newline

  datatype FaultKind =
    | StackOverflow
    | StackUnderflow          // the C code pops without checking; see README
    | BadAddress(addr: i32)
    | BadJump(line: i32)
    | DivisionByZero
    | LiteralOutOfRange
    | JunkInLiteral(c: char)
    | EndOfInput              // the C code reads past end of input; see README
    | UnknownOpcode(op: Opcode)

  /**
   * How one trip round the loop ends: go round again, or leave the loop with
   * status 0 (a step-mode suspension, HALT) or status 1 (a fault, reported
   * with the message kind, the current line and the drained stack, top first).
   */
  datatype Outcome =
    | Continue
    | Suspended
    | Halted
    | Fault(kind: FaultKind, line: i32, dump: seq<i32>)

  /** The integer the C functions return. */
  function Status(o: Outcome): (sts: int)
    ensures sts == 0 || sts == 1
    ensures sts == 1 <==> o.Fault?
  {
    if o.Fault? then 1 else 0
  }

  /**
   * The machine: the instruction register, the current line, the data memory
   * and the stack array with its depth (`stacktop - stack`).
   */
  datatype State = State(ip: nat, lineno: i32, mem: seq<i32>, stack: seq<i32>, top: nat)

  predicate Inv(s: State) {
    s.top <= |s.stack|
  }

  datatype StepResult = StepResult(
    outcome: Outcome, state: State, flags: Flags, out: seq<Out>, input: seq<Literal>)

  /** The stack cells below the depth, listed from the top down, as DIE prints them. */
  function TopToBottom(s: seq<i32>): (r: seq<i32>)
    ensures |r| == |s|
    ensures forall k :: 0 <= k < |s| ==> r[k] == s[|s| - 1 - k]
  {
    if |s| == 0 then [] else [s[|s| - 1]] + TopToBottom(s[..|s| - 1])
  }

  /** DIE: report, pop the stack until it is empty, leave the loop with status 1. */
  function Die(s: State, flags: Flags, kind: FaultKind, input: seq<Literal>): (r: StepResult)
    requires Inv(s)
    ensures r.outcome.Fault? && r.outcome.kind == kind && r.outcome.line == s.lineno
    ensures |r.outcome.dump| == s.top && (s.top > 0 ==> r.outcome.dump[0] == s.stack[s.top - 1])
    ensures r.state == s.(top := 0) && r.flags == flags && r.out == [] && r.input == input
  {
    StepResult(Fault(kind, s.lineno, TopToBottom(s.stack[..s.top])), s.(top := 0), flags, [], input)
  }

  /** PUSH: store at the depth and grow it, unless the stack is full. */
  function Push(s: State, flags: Flags, x: i32, input: seq<Literal>): (r: StepResult)
    requires Inv(s)
    ensures r.outcome.Continue? <==> s.top < |s.stack|
    ensures |r.state.stack| == |s.stack|
    ensures r.outcome.Continue? ==> (r.state.top == s.top + 1 && r.state.stack[s.top] == x
      && r.state.stack[..s.top] == s.stack[..s.top])
    ensures !r.outcome.Continue? ==> r.outcome.Fault? && r.outcome.kind == StackOverflow
    ensures r.state.mem == s.mem && r.state.ip == s.ip && r.flags == flags && r.out == [] && r.input == input
  {
    if s.top < |s.stack| then
      StepResult(Continue, s.(stack := s.stack[s.top := x], top := s.top + 1), flags, [], input)
    else
      Die(s, flags, StackOverflow, input)
  }

  predicate InMemory(a: i32, s: State) {
    0 <= a as int < |s.mem|
  }

  /** The index of the instruction a trip round the loop executes. */
  function Fetched(c: Program, s: State): (at: nat)
    requires WellFormed(c) && Resumable(c, s.ip)
    ensures at < |c.instrs|
  {
    assert InstrOk(c, s.ip);
    c.instrs[s.ip].next.value
  }

  predicate IsBinary(op: Opcode) {
    op.Add? || op.Sub? || op.Mul? || op.Div? || op.Mod?
    || op.Eq? || op.Ne? || op.Gt? || op.Lt? || op.Ge? || op.Le?
  }

  predicate IsWrite(op: Opcode) {
    op.WriteInt? || op.WriteStr? || op.WritelnInt? || op.WritelnStr?
  }

  function Bool(b: bool): i32 { if b then 1 else 0 }

  /** `p op q` as the C expression computes it for an `int` result. */
  function Apply(op: Opcode, p: i32, q: i32): (r: i32)
    requires IsBinary(op) && ((op.Div? || op.Mod?) ==> q != 0)
    ensures op.Add? ==> (r as int - (p as int + q as int)) % MODULUS == 0
    ensures op.Sub? ==> (r as int - (p as int - q as int)) % MODULUS == 0
    ensures op.Mul? ==> (r as int - p as int * q as int) % MODULUS == 0
    ensures op.Div? ==> (r as int - Quot(p as int, q as int)) % MODULUS == 0
    ensures op.Mod? ==> r as int == Rem(p as int, q as int)
    ensures !(op.Add? || op.Sub? || op.Mul? || op.Div? || op.Mod?) ==> r == 0 || r == 1
  {
    match op
    case Add => Wrap(p as int + q as int)
    case Sub => Wrap(p as int - q as int)
    case Mul => Wrap(p as int * q as int)
    case Div => Wrap(Quot(p as int, q as int))
    case Mod => Wrap(Rem(p as int, q as int))
    case Eq => Bool(p == q)
    case Ne => Bool(p != q)
    case Gt => Bool(p > q)
    case Lt => Bool(p < q)
    case Ge => Bool(p >= q)
    case Le => Bool(p <= q)
  }

  /** The flags after HALT: HALTED is raised in step mode only. */
  function HaltFlags(flags: Flags): (r: Flags)
    ensures IsSet(r, HALTED) <==> IsSet(flags, STEP) || IsSet(flags, HALTED)
    ensures IsSet(r, STEP) == IsSet(flags, STEP)
    ensures r & !HALTED == flags & !HALTED
  {
    if IsSet(flags, STEP) then SetFlag(flags, HALTED) else flags
  }

  /**
   * What every trip round the loop keeps: the depth stays within the stack,
   * memory and stack keep their sizes, a trip that stays in the loop or
   * suspends ends on an instruction that has a successor, a fault leaves the
   * stack empty, only HALT changes the flags, and only step mode suspends.
   */
  predicate Sound(c: Program, flags: Flags, s: State, r: StepResult) {
    Inv(r.state)
    && |r.state.mem| == |s.mem| && |r.state.stack| == |s.stack|
    && ((r.outcome.Continue? || r.outcome.Suspended?) ==> Resumable(c, r.state.ip))
    && (r.outcome.Fault? ==> r.state.top == 0)
    && r.flags == (if r.outcome.Halted? then HaltFlags(flags) else flags)
    && (r.outcome.Suspended? ==> IsSet(flags, STEP))
  }

  /** The arithmetic and comparison opcodes: pop q, pop p, push `p op q`. */
  function Binary(c: Program, flags: Flags, s: State, op: Opcode, input: seq<Literal>): (r: StepResult)
    requires Resumable(c, s.ip) && Inv(s) && IsBinary(op)
    ensures Sound(c, flags, s, r)
  {
    if s.top < 2 then Die(s, flags, StackUnderflow, input)
    else
      var q := s.stack[s.top - 1];
      var p := s.stack[s.top - 2];
      var s1 := s.(top := s.top - 2);
      if (op.Div? || op.Mod?) && q == 0 then Die(s1, flags, DivisionByZero, input)
      else Push(s1, flags, Apply(op, p, q), input)
  }

  /** A taken jump to line q: in step mode it also sets the line and suspends. */
  function Jumped(c: Program, flags: Flags, s: State, q: i32, input: seq<Literal>): (r: StepResult)
    requires JumpsOk(c) && Inv(s) && 1 <= q as int < c.size
    ensures Sound(c, flags, s, r)
  {
    var s1 := s.(ip := c.jumps[q - 1]);
    if IsSet(flags, STEP) then StepResult(Suspended, s1.(lineno := q), flags, [], input)
    else StepResult(Continue, s1, flags, [], input)
  }

  /** SET: pop the value, pop the address, store. */
  function ExecSet(c: Program, flags: Flags, s: State, input: seq<Literal>): (r: StepResult)
    requires Resumable(c, s.ip) && Inv(s)
    ensures Sound(c, flags, s, r)
  {
    if s.top < 2 then Die(s, flags, StackUnderflow, input)
    else
      var q := s.stack[s.top - 1];
      var p := s.stack[s.top - 2];
      var s1 := s.(top := s.top - 2);
      if !InMemory(p, s) then Die(s1, flags, BadAddress(p), input)
      else StepResult(Continue, s1.(mem := s.mem[p := q]), flags, [], input)
  }

  /** MEM: pop the address, push the cell. */
  function ExecMem(c: Program, flags: Flags, s: State, input: seq<Literal>): (r: StepResult)
    requires Resumable(c, s.ip) && Inv(s)
    ensures Sound(c, flags, s, r)
  {
    if s.top < 1 then Die(s, flags, StackUnderflow, input)
    else
      var p := s.stack[s.top - 1];
      var s1 := s.(top := s.top - 1);
      if !InMemory(p, s) then Die(s1, flags, BadAddress(p), input)
      else Push(s1, flags, s.mem[p], input)
  }

  /** JUMP: pop the target line; it must lie in [1, size). */
  function ExecJump(c: Program, flags: Flags, s: State, input: seq<Literal>): (r: StepResult)
    requires JumpsOk(c) && Resumable(c, s.ip) && Inv(s)
    ensures Sound(c, flags, s, r)
  {
    if s.top < 1 then Die(s, flags, StackUnderflow, input)
    else
      var q := s.stack[s.top - 1];
      var s1 := s.(top := s.top - 1);
      if q < 1 || q as int >= c.size then Die(s1, flags, BadJump(q), input)
      else Jumped(c, flags, s1, q, input)
  }

  /** JUMPT: pop the condition, pop the target; check the target, then jump if the condition is not 0. */
  function ExecJumpT(c: Program, flags: Flags, s: State, input: seq<Literal>): (r: StepResult)
    requires JumpsOk(c) && Resumable(c, s.ip) && Inv(s)
    ensures Sound(c, flags, s, r)
  {
    if s.top < 2 then Die(s, flags, StackUnderflow, input)
    else
      var p := s.stack[s.top - 1];
      var q := s.stack[s.top - 2];
      var s1 := s.(top := s.top - 2);
      if q < 1 || q as int >= c.size then Die(s1, flags, BadJump(q), input)
      else if p != 0 then Jumped(c, flags, s1, q, input)
      else StepResult(Continue, s1, flags, [], input)
  }

  /** READ: pop the address and check it before any input is read; then read one literal and store it. */
  function ExecRead(c: Program, flags: Flags, s: State, input: seq<Literal>): (r: StepResult)
    requires Resumable(c, s.ip) && Inv(s)
    ensures Sound(c, flags, s, r)
  {
    if s.top < 1 then Die(s, flags, StackUnderflow, input)
    else
      var p := s.stack[s.top - 1];
      var s1 := s.(top := s.top - 1);
      if !InMemory(p, s) then Die(s1, flags, BadAddress(p), input)
      else if |input| == 0 then Die(s1, flags, EndOfInput, input)
      else
        match input[0]
        case RangeError => Die(s1, flags, LiteralOutOfRange, input[1..])
        case TrailingJunk(ch) => Die(s1, flags, JunkInLiteral(ch), input[1..])
        case Number(v) => StepResult(Continue, s1.(mem := s.mem[p := Wrap(v)]), flags, [], input[1..])
  }

  /** The newline the WRITE_INT and WRITE_STR opcodes add in step mode only. */
  function StepNewline(flags: Flags): seq<Out> {
    if IsSet(flags, STEP) then [Newline] else []
  }

  /** WRITE_INT and WRITELN_INT pop and print a number; WRITE_STR and WRITELN_STR print the operand. */
  function ExecWrite(c: Program, flags: Flags, s: State, ins: Instr, input: seq<Literal>): (r: StepResult)
    requires Resumable(c, s.ip) && Inv(s)
    requires IsWrite(ins.opcode) && (WritesString(ins.opcode) ==> ins.strv.Some?)
    ensures Sound(c, flags, s, r)
  {
    if ins.opcode.WriteStr? then
      StepResult(Continue, s, flags, [OutStr(ins.strv.value)] + StepNewline(flags), input)
    else if ins.opcode.WritelnStr? then
      StepResult(Continue, s, flags, [OutStr(ins.strv.value), Newline], input)
    else if s.top < 1 then Die(s, flags, StackUnderflow, input)
    else
      var end := if ins.opcode.WriteInt? then StepNewline(flags) else [Newline];
      StepResult(Continue, s.(top := s.top - 1), flags, [OutInt(s.stack[s.top - 1])] + end, input)
  }

  /** SETLINENO: make `line` the current line; in step mode, every line but the first suspends. */
  function ExecSetLineNo(c: Program, flags: Flags, s: State, line: i32, input: seq<Literal>): (r: StepResult)
    requires Resumable(c, s.ip) && Inv(s)
    ensures Sound(c, flags, s, r)
  {
    var o := if IsSet(flags, STEP) && line > 1 then Suspended else Continue;
    StepResult(o, s.(lineno := line), flags, [], input)
  }

  /** HALT: leave the loop with status 0. */
  function ExecHalt(c: Program, flags: Flags, s: State, input: seq<Literal>): (r: StepResult)
    requires Inv(s)
    ensures Sound(c, flags, s, r)
  {
    StepResult(Halted, s, HaltFlags(flags), [], input)
  }

  /** Execute the fetched instruction `ins`, the one at `s.ip`. */
  function ExecAt(c: Program, flags: Flags, s: State, ins: Instr, input: seq<Literal>): (r: StepResult)
    requires JumpsOk(c) && Inv(s)
    requires !ins.opcode.Halt? ==> Resumable(c, s.ip)
    requires WritesString(ins.opcode) ==> ins.strv.Some?
    ensures Sound(c, flags, s, r)
  {
    if IsBinary(ins.opcode) then Binary(c, flags, s, ins.opcode, input)
    else if IsWrite(ins.opcode) then ExecWrite(c, flags, s, ins, input)
    else
      match ins.opcode
      case Int => Push(s, flags, ins.intv, input)
      case Set => ExecSet(c, flags, s, input)
      case Mem => ExecMem(c, flags, s, input)
      case SetLineNo => ExecSetLineNo(c, flags, s, ins.intv, input)
      case Jump => ExecJump(c, flags, s, input)
      case JumpT => ExecJumpT(c, flags, s, input)
      case Halt => ExecHalt(c, flags, s, input)
      case Ip => Push(s, flags, Wrap(s.lineno as int + 1), input)
      case Read => ExecRead(c, flags, s, input)
      case Start => Die(s, flags, UnknownOpcode(Start), input)
  }

  /** One trip round the loop: fetch `ip = ip->next`, then execute that instruction. */
  function Exec(c: Program, flags: Flags, s0: State, input: seq<Literal>): (r: StepResult)
    requires WellFormed(c) && Resumable(c, s0.ip) && Inv(s0)
    ensures Sound(c, flags, s0, r)
  {
    var at := Fetched(c, s0);
    assert InstrOk(c, at);
    ExecAt(c, flags, s0.(ip := at), c.instrs[at], input)
  }

  /** `r` with `out` printed before it. */
  function After(out: seq<Out>, r: StepResult): StepResult {
    r.(out := out + r.out)
  }

  /**
   * The loop run from `s` for at most `fuel` trips.  The engine itself has no
   * step limit; an outcome of Continue here means the fuel ran out first.
   */
  function RunFrom(c: Program, flags: Flags, s: State, input: seq<Literal>, fuel: nat): (r: StepResult)
    requires WellFormed(c) && Resumable(c, s.ip) && Inv(s)
    ensures Sound(c, flags, s, r)
    decreases fuel, 0
  {
    if fuel == 0 then StepResult(Continue, s, flags, [], input)
    else Resume(c, Exec(c, flags, s, input), fuel - 1)
  }

  /** After the trip `r`: go round again, with `fuel` trips left, if the trip stayed in the loop. */
  function Resume(c: Program, r: StepResult, fuel: nat): (t: StepResult)
    requires WellFormed(c)
    requires r.outcome.Continue? ==> Resumable(c, r.state.ip) && Inv(r.state)
    ensures r.outcome.Continue? ==> r.out <= t.out && Sound(c, r.flags, r.state, t)
    ensures !r.outcome.Continue? ==> t == r
    decreases fuel, 1
  {
    if r.outcome.Continue? then After(r.out, RunFrom(c, r.flags, r.state, r.input, fuel)) else r
  }

  /** One more trip of the loop, `r`, with the output printed so far carried along. */
  lemma RunFromOnce(c: Program, flags: Flags, s: State, input: seq<Literal>, fuel: nat, out: seq<Out>, r: StepResult)
    requires WellFormed(c) && Resumable(c, s.ip) && Inv(s) && fuel > 0
    requires r == Exec(c, flags, s, input)
    ensures r.outcome.Continue? ==>
      && Resumable(c, r.state.ip) && Inv(r.state)
      && After(out, RunFrom(c, flags, s, input, fuel)) == After(out + r.out, RunFrom(c, r.flags, r.state, r.input, fuel - 1))
    ensures !r.outcome.Continue? ==> After(out, RunFrom(c, flags, s, input, fuel)) == After(out, r)
  {
    if r.outcome.Continue? {
      var t := RunFrom(c, r.flags, r.state, r.input, fuel - 1);
      assert out + (r.out + t.out) == (out + r.out) + t.out;
    }
  }

  /** `RunFromOnce` with the fuel that remains after the trip named `left`. */
  lemma RunFromUnfold(c: Program, flags: Flags, s: State, input: seq<Literal>, fuel: nat, left: nat,
                      out: seq<Out>, r: StepResult)
    requires WellFormed(c) && Resumable(c, s.ip) && Inv(s) && fuel == left + 1
    requires r == Exec(c, flags, s, input)
    ensures r.outcome.Continue? ==>
      && Resumable(c, r.state.ip) && Inv(r.state)
      && After(out, RunFrom(c, flags, s, input, fuel)) == After(out + r.out, RunFrom(c, r.flags, r.state, r.input, left))
    ensures !r.outcome.Continue? ==> After(out, RunFrom(c, flags, s, input, fuel)) == After(out, r)
  {
    RunFromOnce(c, flags, s, input, fuel, out, r);
    assert fuel - 1 == left;
  }
}
