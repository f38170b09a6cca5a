/**
 * What the engine promises, stated against the logical stack (the cells
 * below the depth, bottom first) rather than the stack array, opcode by
 * opcode and for whole runs.
 */
module EngineProps {
  import opened Int32
  import opened Flags
  import opened Bytecode
  import opened Wrappers
  import opened Engine

  /** The values on the stack, bottom first. */
  function Live(s: State): seq<i32>
    requires Inv(s)
  {
    s.stack[..s.top]
  }

  /** The instruction the next trip round the loop executes. */
  function NextIns(c: Program, s: State): (ins: Instr)
    requires WellFormed(c) && Resumable(c, s.ip)
    ensures WritesString(ins.opcode) ==> ins.strv.Some?
  {
    assert InstrOk(c, Fetched(c, s));
    c.instrs[Fetched(c, s)]
  }

  /** How many values an opcode pops before it does anything else. */
  function Arity(op: Opcode): nat {
    if IsBinary(op) || op.Set? || op.JumpT? then 2
    else if op.Mem? || op.Jump? || op.Read? || op.WriteInt? || op.WritelnInt? then 1
    else 0
  }

  /** A trip that stays in the loop, moves on to the fetched instruction and leaves the rest alone. */
  predicate FallsThrough(c: Program, s: State, r: StepResult)
    requires WellFormed(c) && Resumable(c, s.ip)
  {
    r.outcome.Continue? && r.state.ip == Fetched(c, s) && r.state.lineno == s.lineno
  }

  /** `s` with `x` put in place of the depth and the depth grown by one. */
  lemma PushedLive(s: State, x: i32)
    requires Inv(s) && s.top < |s.stack|
    ensures Live(s.(stack := s.stack[s.top := x], top := s.top + 1)) == Live(s) + [x]
  {
    var t := s.(stack := s.stack[s.top := x], top := s.top + 1);
    assert forall k :: 0 <= k < s.top ==> Live(t)[k] == Live(s)[k];
  }

  /** Popping `n` cells leaves the logical stack without its last `n` values. */
  lemma PoppedLive(s: State, n: nat, L: seq<i32>, tail: seq<i32>)
    requires Inv(s) && Live(s) == L + tail && |tail| == n
    ensures Live(s.(top := s.top - n)) == L
  {
    assert Live(s.(top := s.top - n)) == Live(s)[..|L|];
  }

  /** DIE reports the logical stack top first and leaves the stack empty; the status is 1. */
  lemma DieDrains(s: State, flags: Flags, kind: FaultKind, input: seq<Literal>)
    requires Inv(s)
    ensures var r := Die(s, flags, kind, input);
      && r.outcome == Fault(kind, s.lineno, TopToBottom(Live(s)))
      && Status(r.outcome) == 1 && Live(r.state) == []
      && (|Live(s)| > 0 ==> r.outcome.dump[0] == Live(s)[|Live(s)| - 1])
      && r.state.mem == s.mem && r.flags == flags && r.out == [] && r.input == input
  {
  }

  /**
   * PUSH fails exactly when the stack is full, with the stack-overflow fault;
   * otherwise `x` is the new top and nothing below it changes.
   */
  lemma PushSpec(s: State, flags: Flags, x: i32, input: seq<Literal>)
    requires Inv(s)
    ensures var r := Push(s, flags, x, input);
      && (r.outcome.Fault? <==> s.top == |s.stack|)
      && (r.outcome.Fault? ==> r.outcome == Fault(StackOverflow, s.lineno, TopToBottom(Live(s))))
      && (!r.outcome.Fault? ==> r.outcome.Continue? && Live(r.state) == Live(s) + [x])
      && r.state.mem == s.mem && r.state.ip == s.ip && r.out == [] && r.input == input
  {
    if s.top < |s.stack| {
      PushedLive(s, x);
    }
  }

  /** Every opcode that pops first faults with stack underflow, before doing anything, when the stack is too shallow. */
  lemma UnderflowFaults(c: Program, flags: Flags, s: State, input: seq<Literal>)
    requires WellFormed(c) && Resumable(c, s.ip) && Inv(s)
    requires |Live(s)| < Arity(NextIns(c, s).opcode)
    ensures var r := Exec(c, flags, s, input);
      r.outcome == Fault(StackUnderflow, s.lineno, TopToBottom(Live(s))) && r.input == input
  {
    Dispatch(c, flags, s, input);
  }

  /** INT pushes its operand; IP pushes the current line plus one. */
  lemma IntAndIpPush(c: Program, flags: Flags, s: State, input: seq<Literal>)
    requires WellFormed(c) && Resumable(c, s.ip) && Inv(s)
    requires NextIns(c, s).opcode.Int? || NextIns(c, s).opcode.Ip?
    ensures var r := Exec(c, flags, s, input);
      var x := if NextIns(c, s).opcode.Int? then NextIns(c, s).intv else Wrap(s.lineno as int + 1);
      && (s.top < |s.stack| ==> FallsThrough(c, s, r) && Live(r.state) == Live(s) + [x])
      && (s.top == |s.stack| ==> r.outcome == Fault(StackOverflow, s.lineno, TopToBottom(Live(s))))
      && r.state.mem == s.mem && r.out == [] && r.input == input
  {
    var ins := NextIns(c, s);
    var at := Fetched(c, s);
    var x := if ins.opcode.Int? then ins.intv else Wrap(s.lineno as int + 1);
    assert InstrOk(c, at);
    assert Exec(c, flags, s, input) == Push(s.(ip := at), flags, x, input);
    PushSpec(s.(ip := at), flags, x, input);
  }

  /**
   * SET pops the value, then the address below it, and stores the value there;
   * an address outside memory is a fault, and no other cell changes.
   */
  lemma SetStores(c: Program, flags: Flags, s: State, input: seq<Literal>, L: seq<i32>, a: i32, v: i32)
    requires WellFormed(c) && Resumable(c, s.ip) && Inv(s)
    requires NextIns(c, s).opcode.Set? && Live(s) == L + [a, v]
    ensures var r := Exec(c, flags, s, input);
      && (InMemory(a, s) ==> FallsThrough(c, s, r) && Live(r.state) == L && r.state.mem == s.mem[a := v])
      && (!InMemory(a, s) ==> r.outcome == Fault(BadAddress(a), s.lineno, TopToBottom(L)))
      && r.out == [] && r.input == input
  {
    var at := Fetched(c, s);
    assert InstrOk(c, at);
    assert Exec(c, flags, s, input) == ExecSet(c, flags, s.(ip := at), input);
    assert s.stack[s.top - 1] == v && s.stack[s.top - 2] == a by {
      assert Live(s)[|L|] == a && Live(s)[|L| + 1] == v;
    }
    PoppedLive(s, 2, L, [a, v]);
  }

  /** MEM pops an address and pushes the cell stored there; it never overflows, since it popped first. */
  lemma MemLoads(c: Program, flags: Flags, s: State, input: seq<Literal>, L: seq<i32>, a: i32)
    requires WellFormed(c) && Resumable(c, s.ip) && Inv(s)
    requires NextIns(c, s).opcode.Mem? && Live(s) == L + [a]
    ensures var r := Exec(c, flags, s, input);
      && (InMemory(a, s) ==> FallsThrough(c, s, r) && Live(r.state) == L + [s.mem[a]])
      && (!InMemory(a, s) ==> r.outcome == Fault(BadAddress(a), s.lineno, TopToBottom(L)))
      && r.state.mem == s.mem && r.out == [] && r.input == input
  {
    var at := Fetched(c, s);
    assert InstrOk(c, at);
    assert Exec(c, flags, s, input) == ExecMem(c, flags, s.(ip := at), input);
    assert s.stack[s.top - 1] == a by {
      assert Live(s)[|L|] == a;
    }
    var s1 := s.(ip := at, top := s.top - 1);
    PoppedLive(s.(ip := at), 1, L, [a]);
    if InMemory(a, s) {
      PushSpec(s1, flags, s.mem[a], input);
    }
  }

  /**
   * READ pops the address and checks it before it reads anything: a bad
   * address consumes no input.  Otherwise it reads one literal and stores
   * its low 32 bits, or faults on a literal `strtol` rejects.
   */
  lemma ReadStores(c: Program, flags: Flags, s: State, input: seq<Literal>, L: seq<i32>, a: i32)
    requires WellFormed(c) && Resumable(c, s.ip) && Inv(s)
    requires NextIns(c, s).opcode.Read? && Live(s) == L + [a]
    ensures var r := Exec(c, flags, s, input);
      && (!InMemory(a, s) ==> r.outcome == Fault(BadAddress(a), s.lineno, TopToBottom(L)) && r.input == input)
      && (InMemory(a, s) && input == [] ==> r.outcome == Fault(EndOfInput, s.lineno, TopToBottom(L)))
      && (InMemory(a, s) && input != [] ==> r.input == input[1..] && match input[0]
           case Number(n) => FallsThrough(c, s, r) && Live(r.state) == L && r.state.mem == s.mem[a := Wrap(n)]
           case RangeError => r.outcome == Fault(LiteralOutOfRange, s.lineno, TopToBottom(L))
           case TrailingJunk(ch) => r.outcome == Fault(JunkInLiteral(ch), s.lineno, TopToBottom(L)))
      && r.out == []
  {
    var at := Fetched(c, s);
    assert InstrOk(c, at);
    assert Exec(c, flags, s, input) == ExecRead(c, flags, s.(ip := at), input);
    assert s.stack[s.top - 1] == a by {
      assert Live(s)[|L|] == a;
    }
    PoppedLive(s, 1, L, [a]);
  }

  /**
   * JUMP pops a line number and accepts exactly the lines 1 .. size - 1.  It
   * continues from that line's table entry; in step mode it also makes the
   * target the current line and suspends.
   */
  lemma JumpGoes(c: Program, flags: Flags, s: State, input: seq<Literal>, L: seq<i32>, q: i32)
    requires WellFormed(c) && Resumable(c, s.ip) && Inv(s)
    requires NextIns(c, s).opcode.Jump? && Live(s) == L + [q]
    ensures var r := Exec(c, flags, s, input);
      && (r.outcome.Fault? <==> q < 1 || q as int >= c.size)
      && (r.outcome.Fault? ==> r.outcome == Fault(BadJump(q), s.lineno, TopToBottom(L)))
      && (!r.outcome.Fault? ==>
          && r.state.ip == c.jumps[q - 1] && Live(r.state) == L
          && (if IsSet(flags, STEP) then r.outcome.Suspended? && r.state.lineno == q
              else r.outcome.Continue? && r.state.lineno == s.lineno))
      && r.state.mem == s.mem && r.out == [] && r.input == input
  {
    var at := Fetched(c, s);
    assert InstrOk(c, at);
    assert Exec(c, flags, s, input) == ExecJump(c, flags, s.(ip := at), input);
    assert s.stack[s.top - 1] == q by {
      assert Live(s)[|L|] == q;
    }
    PoppedLive(s, 1, L, [q]);
  }

  /**
   * JUMPT pops the condition, then the target below it.  The target is
   * checked even when the condition is 0; a condition of 0 falls through, any
   * other value jumps as JUMP does.
   */
  lemma JumpTGoes(c: Program, flags: Flags, s: State, input: seq<Literal>, L: seq<i32>, q: i32, p: i32)
    requires WellFormed(c) && Resumable(c, s.ip) && Inv(s)
    requires NextIns(c, s).opcode.JumpT? && Live(s) == L + [q, p]
    ensures var r := Exec(c, flags, s, input);
      && (r.outcome.Fault? <==> q < 1 || q as int >= c.size)
      && (r.outcome.Fault? ==> r.outcome == Fault(BadJump(q), s.lineno, TopToBottom(L)))
      && (!r.outcome.Fault? && p == 0 ==> FallsThrough(c, s, r))
      && (!r.outcome.Fault? && p != 0 ==>
          && r.state.ip == c.jumps[q - 1]
          && (if IsSet(flags, STEP) then r.outcome.Suspended? && r.state.lineno == q
              else r.outcome.Continue? && r.state.lineno == s.lineno))
      && (!r.outcome.Fault? ==> Live(r.state) == L)
      && r.state.mem == s.mem && r.out == [] && r.input == input
  {
    var at := Fetched(c, s);
    assert InstrOk(c, at);
    assert Exec(c, flags, s, input) == ExecJumpT(c, flags, s.(ip := at), input);
    assert s.stack[s.top - 1] == p && s.stack[s.top - 2] == q by {
      assert Live(s)[|L|] == q && Live(s)[|L| + 1] == p;
    }
    PoppedLive(s, 2, L, [q, p]);
  }

  /**
   * The arithmetic and comparison opcodes pop q, then p, and push `p op q`;
   * DIV and MOD by zero fault, whatever p is.  They never overflow the stack.
   */
  lemma BinaryComputes(c: Program, flags: Flags, s: State, input: seq<Literal>, L: seq<i32>, p: i32, q: i32)
    requires WellFormed(c) && Resumable(c, s.ip) && Inv(s)
    requires IsBinary(NextIns(c, s).opcode) && Live(s) == L + [p, q]
    ensures var op := NextIns(c, s).opcode;
      var r := Exec(c, flags, s, input);
      && ((op.Div? || op.Mod?) && q == 0 ==> r.outcome == Fault(DivisionByZero, s.lineno, TopToBottom(L)))
      && (!((op.Div? || op.Mod?) && q == 0) ==> FallsThrough(c, s, r) && Live(r.state) == L + [Apply(op, p, q)])
      && r.state.mem == s.mem && r.out == [] && r.input == input
  {
    var op := NextIns(c, s).opcode;
    var at := Fetched(c, s);
    assert InstrOk(c, at);
    assert Exec(c, flags, s, input) == Binary(c, flags, s.(ip := at), op, input);
    assert s.stack[s.top - 1] == q && s.stack[s.top - 2] == p by {
      assert Live(s)[|L|] == p && Live(s)[|L| + 1] == q;
    }
    var s1 := s.(ip := at, top := s.top - 2);
    PoppedLive(s.(ip := at), 2, L, [p, q]);
    if !((op.Div? || op.Mod?) && q == 0) {
      PushSpec(s1, flags, Apply(op, p, q), input);
    }
  }

  /** The comparison opcodes push 1 when the relation holds and 0 when it does not. */
  lemma ComparisonsPushTruth(op: Opcode, p: i32, q: i32)
    requires op.Eq? || op.Ne? || op.Gt? || op.Lt? || op.Ge? || op.Le?
    ensures Apply(op, p, q) == 0 || Apply(op, p, q) == 1
    ensures Apply(op, p, q) == 1 <==>
      match op
      case Eq => p == q
      case Ne => p != q
      case Gt => p > q
      case Lt => p < q
      case Ge => p >= q
      case _ => p <= q
  {
  }

  /** DIV and MOD truncate toward zero, as C does: -7 / 2 is -3 and -7 % 2 is -1, not -4 and 1. */
  lemma DivisionTruncates()
    ensures Apply(Div, -7, 2) == -3 && Apply(Mod, -7, 2) == -1
    ensures Apply(Div, 7, -2) == -3 && Apply(Mod, 7, -2) == 1
    ensures Apply(Div, MIN as i32, -1) == MIN as i32
  {
    assert Quot(-7, 2) == -3;
    assert Quot(7, -2) == -3;
    assert Quot(MIN, -1) == MAX + 1;
  }

  /**
   * WRITE_INT and WRITELN_INT pop and print the top; WRITE_STR and WRITELN_STR
   * print their text.  The WRITELN forms end the line; the WRITE forms do so in
   * step mode only.
   */
  lemma WritePrints(c: Program, flags: Flags, s: State, input: seq<Literal>)
    requires WellFormed(c) && Resumable(c, s.ip) && Inv(s)
    requires IsWrite(NextIns(c, s).opcode) && |Live(s)| >= Arity(NextIns(c, s).opcode)
    ensures var ins := NextIns(c, s);
      var r := Exec(c, flags, s, input);
      var shown := if WritesString(ins.opcode) then OutStr(ins.strv.value) else OutInt(Live(s)[|Live(s)| - 1]);
      var ends := ins.opcode.WritelnInt? || ins.opcode.WritelnStr? || IsSet(flags, STEP);
      && FallsThrough(c, s, r)
      && r.out == [shown] + (if ends then [Newline] else [])
      && (WritesString(ins.opcode) ==> Live(r.state) == Live(s))
      && (!WritesString(ins.opcode) ==> Live(r.state) == Live(s)[..|Live(s)| - 1])
      && r.state.mem == s.mem && r.input == input
  {
    var at := Fetched(c, s);
    assert InstrOk(c, at);
    assert Exec(c, flags, s, input) == ExecWrite(c, flags, s.(ip := at), NextIns(c, s), input);
  }

  /** SETLINENO makes its operand the current line; it suspends in step mode, except for line 1. */
  lemma SetLineNoSuspends(c: Program, flags: Flags, s: State, input: seq<Literal>)
    requires WellFormed(c) && Resumable(c, s.ip) && Inv(s)
    requires NextIns(c, s).opcode.SetLineNo?
    ensures var r := Exec(c, flags, s, input);
      && r.state.lineno == NextIns(c, s).intv
      && r.state.ip == Fetched(c, s)
      && (r.outcome.Suspended? <==> IsSet(flags, STEP) && NextIns(c, s).intv > 1)
      && (!r.outcome.Suspended? ==> r.outcome.Continue?)
      && r.state.mem == s.mem && Live(r.state) == Live(s) && r.out == [] && r.input == input
  {
    var at := Fetched(c, s);
    assert InstrOk(c, at);
  }

  /**
   * HALT leaves the loop with status 0 and the machine untouched; it raises
   * HALTED when, and only when, the machine is in step mode, and keeps every
   * other flag.
   */
  lemma HaltStops(c: Program, flags: Flags, s: State, input: seq<Literal>)
    requires WellFormed(c) && Resumable(c, s.ip) && Inv(s)
    requires NextIns(c, s).opcode.Halt?
    ensures var r := Exec(c, flags, s, input);
      && r.outcome.Halted? && Status(r.outcome) == 0
      && r.state == s.(ip := Fetched(c, s)) && r.out == [] && r.input == input
      && (IsSet(r.flags, HALTED) <==> IsSet(flags, STEP) || IsSet(flags, HALTED))
      && IsSet(r.flags, STEP) == IsSet(flags, STEP)
      && r.flags & !HALTED == flags & !HALTED
  {
    var at := Fetched(c, s);
    assert InstrOk(c, at);
    assert Exec(c, flags, s, input) == StepResult(Halted, s.(ip := at), HaltFlags(flags), [], input);
  }

  /** START is only a list head: reaching one is an unknown-opcode fault. */
  lemma StartIsUnknown(c: Program, flags: Flags, s: State, input: seq<Literal>)
    requires WellFormed(c) && Resumable(c, s.ip) && Inv(s)
    requires NextIns(c, s).opcode.Start?
    ensures Exec(c, flags, s, input).outcome == Fault(UnknownOpcode(Start), s.lineno, TopToBottom(Live(s)))
  {
    var at := Fetched(c, s);
    assert InstrOk(c, at);
  }

  /** The trip runs the helper for the fetched opcode, on the state moved to the fetched instruction. */
  lemma Dispatch(c: Program, flags: Flags, s: State, input: seq<Literal>)
    requires WellFormed(c) && Resumable(c, s.ip) && Inv(s)
    ensures var at := Fetched(c, s);
      var ins := c.instrs[at];
      var s1 := s.(ip := at);
      var r := Exec(c, flags, s, input);
      && (!ins.opcode.Halt? ==> Resumable(c, at))
      && (WritesString(ins.opcode) ==> ins.strv.Some?)
      && (IsBinary(ins.opcode) ==> r == Binary(c, flags, s1, ins.opcode, input))
      && (IsWrite(ins.opcode) ==> r == ExecWrite(c, flags, s1, ins, input))
      && (ins.opcode.Int? ==> r == Push(s1, flags, ins.intv, input))
      && (ins.opcode.Ip? ==> r == Push(s1, flags, Wrap(s.lineno as int + 1), input))
      && (ins.opcode.Set? ==> r == ExecSet(c, flags, s1, input))
      && (ins.opcode.Mem? ==> r == ExecMem(c, flags, s1, input))
      && (ins.opcode.Read? ==> r == ExecRead(c, flags, s1, input))
      && (ins.opcode.Jump? ==> r == ExecJump(c, flags, s1, input))
      && (ins.opcode.JumpT? ==> r == ExecJumpT(c, flags, s1, input))
      && (ins.opcode.SetLineNo? ==> r == ExecSetLineNo(c, flags, s1, ins.intv, input))
      && (ins.opcode.Halt? ==> r == ExecHalt(c, flags, s1, input))
      && (ins.opcode.Start? ==> r == Die(s1, flags, UnknownOpcode(Start), input))
  {
    var at := Fetched(c, s);
    assert InstrOk(c, at);
    assert Exec(c, flags, s, input) == ExecAt(c, flags, s.(ip := at), c.instrs[at], input);
  }

  /** Outside step mode a run never suspends: it ends only at HALT, at a fault, or when the fuel runs out. */
  lemma BatchNeverSuspends(c: Program, flags: Flags, s: State, input: seq<Literal>, fuel: nat)
    requires WellFormed(c) && Resumable(c, s.ip) && Inv(s)
    requires !IsSet(flags, STEP)
    ensures !RunFrom(c, flags, s, input, fuel).outcome.Suspended?
  {
  }

  /**
   * Fuel is only a bound: once a run has stopped (at HALT, a suspension or a
   * fault), running it with more fuel gives the same result.
   */
  lemma {:induction false} MoreFuelChangesNothing(c: Program, flags: Flags, s: State, input: seq<Literal>, a: nat, b: nat)
    requires WellFormed(c) && Resumable(c, s.ip) && Inv(s)
    requires !RunFrom(c, flags, s, input, a).outcome.Continue?
    ensures RunFrom(c, flags, s, input, a + b) == RunFrom(c, flags, s, input, a)
    decreases a, 0
  {
    ResumeMoreFuel(c, Exec(c, flags, s, input), a - 1, b);
    assert a + b - 1 == a - 1 + b;
  }

  /** The same for the rest of a run after the trip `r`. */
  lemma {:induction false} ResumeMoreFuel(c: Program, r: StepResult, a: nat, b: nat)
    requires WellFormed(c) && (r.outcome.Continue? ==> Resumable(c, r.state.ip) && Inv(r.state))
    requires !Resume(c, r, a).outcome.Continue?
    ensures Resume(c, r, a + b) == Resume(c, r, a)
    decreases a, 1
  {
    if r.outcome.Continue? {
      MoreFuelChangesNothing(c, r.flags, r.state, r.input, a, b);
    }
  }

  /** The first trip of a run with `left + 1` trips of fuel. */
  lemma Unroll(c: Program, flags: Flags, s: State, input: seq<Literal>, fuel: nat, left: nat, r: StepResult)
    requires WellFormed(c) && Resumable(c, s.ip) && Inv(s) && fuel == left + 1
    requires r == Exec(c, flags, s, input)
    ensures r.outcome.Continue? ==>
      && Resumable(c, r.state.ip) && Inv(r.state)
      && RunFrom(c, flags, s, input, fuel) == After(r.out, RunFrom(c, r.flags, r.state, r.input, left))
    ensures !r.outcome.Continue? ==> RunFrom(c, flags, s, input, fuel) == r
  {
    assert fuel - 1 == left;
  }
}
