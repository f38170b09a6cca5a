/**
 * The virtual machine as the C code holds it: `struct VM` with its memory
 * and stack arrays, the depth cursor and the flags word, updated in place.
 *
 * The engine loop is written once.  The instruction register and the line
 * number travel through it as the registers `at` and `ln`, as in
 * `evalCode` (src/eval.c); `EvalCode` (src/vm.c `eval_code`) writes them
 * back unconditionally, `EvalCodeResumable` (src/eval.c `evalCode`) only on
 * status 0.  Every method is proved to leave exactly the state the engine
 * functions of engine.dfy describe.
 */
module Machine {
  import opened Int32
  import opened Flags
  import opened Bytecode
  import opened Wrappers
  import opened Engine

  predicate AllZero(a: seq<i32>) {
    forall k :: 0 <= k < |a| ==> a[k] == 0
  }

  class VM {
    /** The program `initVM` attaches; `vm_init` leaves it unset. */
    var code: Option<Program>
    /** The saved instruction pointer; None is the NULL `vm_init` stores. */
    var ip: Option<nat>
    var lineno: i32
    const mem: array<i32>
    const stack: array<i32>
    /** The depth `stacktop - stack`. */
    var top: nat
    var flags: Flags

    ghost predicate Valid()
      reads this
    {
      top <= stack.Length && mem != stack
    }

    /** The engine's view of this machine when the registers hold `at` and `ln`. */
    ghost function Regs(at: nat, ln: i32): State
      reads this, mem, stack
    {
      State(at, ln, mem[..], stack[..], top)
    }

    /** The machine, the registers, the output and the unread input are those `r` describes. */
    ghost predicate Gives(r: StepResult, o: Outcome, at: nat, ln: i32, out: seq<Out>, rest: seq<Literal>)
      reads this, mem, stack
    {
      r == StepResult(o, Regs(at, ln), flags, out, rest)
    }

    /** `vm_init`: zeroed memory and stack, empty stack, no instruction yet, line 1, no flags. */
    constructor (memsize: int, stacksize: int)
      requires memsize > 0 && stacksize > 0
      ensures Valid() && fresh(mem) && fresh(stack)
      ensures mem.Length == memsize && stack.Length == stacksize
      ensures AllZero(mem[..]) && AllZero(stack[..])
      ensures top == 0 && ip == None && lineno == 1 && flags == 0 && code == None
    {
      code := None;
      mem := new i32[memsize](_ => 0);
      stack := new i32[stacksize](_ => 0);
      top := 0;
      ip := None;
      lineno := 1;
      flags := 0;
    }

    /** `initVM`: as `vm_init`, with the program attached and the instruction register on its head. */
    constructor ForCode(c: Program, ms: nat, ss: nat)
      ensures Valid() && fresh(mem) && fresh(stack)
      ensures mem.Length == ms && stack.Length == ss
      ensures AllZero(mem[..]) && AllZero(stack[..])
      ensures code == Some(c) && ip == Some(Head) && top == 0 && lineno == 1 && flags == 0
    {
      var m := new i32[ms];
      var i := 0;
      while i < ms
        invariant i <= ms
        invariant forall k :: 0 <= k < i ==> m[k] == 0
      {
        m[i] := 0;
        i := i + 1;
      }
      var st := new i32[ss];
      i := 0;
      while i < ss
        invariant i <= ss
        invariant forall k :: 0 <= k < i ==> st[k] == 0
        invariant forall k :: 0 <= k < ms ==> m[k] == 0
      {
        st[i] := 0;
        i := i + 1;
      }
      code := Some(c);
      ip := Some(Head);
      mem := m;
      stack := st;
      top := 0;
      lineno := 1;
      flags := 0;
    }

    /** The loop in DIE: pop until the stack is empty, collecting the cells top first. */
    method Drain() returns (dump: seq<i32>)
      requires Valid()
      modifies this`top
      ensures Valid() && top == 0
      ensures dump == TopToBottom(old(stack[..top]))
    {
      ghost var t0 := top;
      ghost var s := stack[..top];
      dump := [];
      while top > 0
        invariant top <= t0 && |dump| == t0 - top
        invariant forall k :: 0 <= k < |dump| ==> dump[k] == s[t0 - 1 - k]
      {
        top := top - 1;
        dump := dump + [stack[top]];
      }
      assert dump == TopToBottom(s);
    }

    /** DIE: report the kind, the line and the drained stack. */
    method Die(kind: FaultKind, ghost at: nat, ln: i32, ghost input: seq<Literal>) returns (o: Outcome)
      requires Valid()
      modifies this`top
      ensures Valid() && Gives(Engine.Die(old(Regs(at, ln)), old(flags), kind, input), o, at, ln, [], input)
    {
      var dump := Drain();
      o := Fault(kind, ln, dump);
    }

    /** PUSH: store at the depth and grow it, or die with a stack overflow. */
    method Push(x: i32, ghost at: nat, ln: i32, ghost input: seq<Literal>) returns (o: Outcome)
      requires Valid()
      modifies this`top, stack
      ensures Valid() && Gives(Engine.Push(old(Regs(at, ln)), old(flags), x, input), o, at, ln, [], input)
    {
      if top < stack.Length {
        stack[top] := x;
        top := top + 1;
        o := Continue;
      } else {
        o := Die(StackOverflow, at, ln, input);
      }
    }

    method ExecSet(ghost c: Program, ghost at: nat, ln: i32, ghost input: seq<Literal>) returns (o: Outcome)
      requires Valid() && Resumable(c, at)
      modifies this`top, mem
      ensures Valid() && Gives(Engine.ExecSet(c, old(flags), old(Regs(at, ln)), input), o, at, ln, [], input)
    {
      if top < 2 {
        o := Die(StackUnderflow, at, ln, input);
        return;
      }
      top := top - 1;
      var q := stack[top];
      top := top - 1;
      var p := stack[top];
      if p < 0 || p as int >= mem.Length {
        o := Die(BadAddress(p), at, ln, input);
      } else {
        mem[p] := q;
        o := Continue;
      }
    }

    method ExecMem(ghost c: Program, ghost at: nat, ln: i32, ghost input: seq<Literal>) returns (o: Outcome)
      requires Valid() && Resumable(c, at)
      modifies this`top, stack
      ensures Valid() && Gives(Engine.ExecMem(c, old(flags), old(Regs(at, ln)), input), o, at, ln, [], input)
    {
      if top < 1 {
        o := Die(StackUnderflow, at, ln, input);
        return;
      }
      top := top - 1;
      var p := stack[top];
      if p < 0 || p as int >= mem.Length {
        o := Die(BadAddress(p), at, ln, input);
      } else {
        o := Push(mem[p], at, ln, input);
      }
    }

    /** The taken branch of JUMP and JUMPT: `ip = jumps[q - 1]`, and in step mode `lineno = q` and leave. */
    method Jumped(c: Program, ghost from: nat, q: i32, ln: i32, ghost input: seq<Literal>) returns (o: Outcome, at: nat, ln': i32)
      requires Valid() && JumpsOk(c) && 1 <= q as int < c.size
      ensures Gives(Engine.Jumped(c, flags, Regs(from, ln), q, input), o, at, ln', [], input)
    {
      at := c.jumps[q - 1];
      if IsSet(flags, STEP) {
        o, ln' := Suspended, q;
      } else {
        o, ln' := Continue, ln;
      }
    }

    method ExecJump(c: Program, at: nat, ln: i32, ghost input: seq<Literal>) returns (o: Outcome, at': nat, ln': i32)
      requires Valid() && JumpsOk(c) && Resumable(c, at)
      modifies this`top
      ensures Valid() && Gives(Engine.ExecJump(c, old(flags), old(Regs(at, ln)), input), o, at', ln', [], input)
    {
      if top < 1 {
        o := Die(StackUnderflow, at, ln, input);
        return o, at, ln;
      }
      top := top - 1;
      var q := stack[top];
      if q < 1 || q as int >= c.size {
        o := Die(BadJump(q), at, ln, input);
        return o, at, ln;
      }
      o, at', ln' := Jumped(c, at, q, ln, input);
    }

    method ExecJumpT(c: Program, at: nat, ln: i32, ghost input: seq<Literal>) returns (o: Outcome, at': nat, ln': i32)
      requires Valid() && JumpsOk(c) && Resumable(c, at)
      modifies this`top
      ensures Valid() && Gives(Engine.ExecJumpT(c, old(flags), old(Regs(at, ln)), input), o, at', ln', [], input)
    {
      if top < 2 {
        o := Die(StackUnderflow, at, ln, input);
        return o, at, ln;
      }
      top := top - 1;
      var p := stack[top];
      top := top - 1;
      var q := stack[top];
      if q < 1 || q as int >= c.size {
        o := Die(BadJump(q), at, ln, input);
        return o, at, ln;
      }
      if p != 0 {
        o, at', ln' := Jumped(c, at, q, ln, input);
      } else {
        o, at', ln' := Continue, at, ln;
      }
    }

    method ExecRead(ghost c: Program, ghost at: nat, ln: i32, input: seq<Literal>) returns (o: Outcome, rest: seq<Literal>)
      requires Valid() && Resumable(c, at)
      modifies this`top, mem
      ensures Valid() && Gives(Engine.ExecRead(c, old(flags), old(Regs(at, ln)), input), o, at, ln, [], rest)
    {
      ghost var s := Regs(at, ln);
      ghost var goal := Engine.ExecRead(c, flags, s, input);
      if top < 1 {
        o := Die(StackUnderflow, at, ln, input);
        return o, input;
      }
      top := top - 1;
      var p := stack[top];
      ghost var s1 := s.(top := s.top - 1);
      assert Regs(at, ln) == s1;
      if p < 0 || p as int >= mem.Length {
        assert goal == Engine.Die(s1, flags, BadAddress(p), input);
        o := Die(BadAddress(p), at, ln, input);
        return o, input;
      }
      if |input| == 0 {
        assert goal == Engine.Die(s1, flags, EndOfInput, input);
        o := Die(EndOfInput, at, ln, input);
        return o, input;
      }
      rest := input[1..];
      match input[0]
      case RangeError =>
        assert goal == Engine.Die(s1, flags, LiteralOutOfRange, rest);
        o := Die(LiteralOutOfRange, at, ln, rest);
      case TrailingJunk(ch) =>
        assert goal == Engine.Die(s1, flags, JunkInLiteral(ch), rest);
        o := Die(JunkInLiteral(ch), at, ln, rest);
      case Number(v) =>
        assert goal == StepResult(Continue, s1.(mem := s.mem[p := Wrap(v)]), flags, [], rest);
        mem[p] := Wrap(v);
        assert mem[..] == s.mem[p := Wrap(v)];
        o := Continue;
    }

    method ExecWrite(ghost c: Program, ghost at: nat, ln: i32, ins: Instr, ghost input: seq<Literal>)
      returns (o: Outcome, out: seq<Out>)
      requires Valid() && Resumable(c, at)
      requires IsWrite(ins.opcode) && (WritesString(ins.opcode) ==> ins.strv.Some?)
      modifies this`top
      ensures Valid() && Gives(Engine.ExecWrite(c, old(flags), old(Regs(at, ln)), ins, input), o, at, ln, out, input)
    {
      var nl := if IsSet(flags, STEP) then [Newline] else [];
      if ins.opcode.WriteStr? {
        o, out := Continue, [OutStr(ins.strv.value)] + nl;
      } else if ins.opcode.WritelnStr? {
        o, out := Continue, [OutStr(ins.strv.value), Newline];
      } else if top < 1 {
        o := Die(StackUnderflow, at, ln, input);
        out := [];
      } else {
        top := top - 1;
        var p := stack[top];
        out := [OutInt(p)] + (if ins.opcode.WriteInt? then nl else [Newline]);
        o := Continue;
      }
    }

    method ExecBinary(ghost c: Program, ghost at: nat, ln: i32, op: Opcode, ghost input: seq<Literal>) returns (o: Outcome)
      requires Valid() && Resumable(c, at) && IsBinary(op)
      modifies this`top, stack
      ensures Valid() && Gives(Engine.Binary(c, old(flags), old(Regs(at, ln)), op, input), o, at, ln, [], input)
    {
      if top < 2 {
        o := Die(StackUnderflow, at, ln, input);
        return;
      }
      top := top - 1;
      var q := stack[top];
      top := top - 1;
      var p := stack[top];
      if (op.Div? || op.Mod?) && q == 0 {
        o := Die(DivisionByZero, at, ln, input);
      } else {
        o := Push(Apply(op, p, q), at, ln, input);
      }
    }

    /** Run the fetched instruction `ins`, the one at `at`. */
    method ExecAt(c: Program, at: nat, ln: i32, ins: Instr, input: seq<Literal>)
      returns (o: Outcome, at': nat, ln': i32, out: seq<Out>, rest: seq<Literal>)
      requires Valid() && JumpsOk(c)
      requires !ins.opcode.Halt? ==> Resumable(c, at)
      requires WritesString(ins.opcode) ==> ins.strv.Some?
      modifies this`top, this`flags, mem, stack
      ensures Valid() && Gives(Engine.ExecAt(c, old(flags), old(Regs(at, ln)), ins, input), o, at', ln', out, rest)
    {
      at', ln', out, rest := at, ln, [], input;
      if IsBinary(ins.opcode) {
        o := ExecBinary(c, at, ln, ins.opcode, input);
        return;
      }
      if IsWrite(ins.opcode) {
        o, out := ExecWrite(c, at, ln, ins, input);
        return;
      }
      match ins.opcode
      case Int => o := Push(ins.intv, at, ln, input);
      case Set => o := ExecSet(c, at, ln, input);
      case Mem => o := ExecMem(c, at, ln, input);
      case SetLineNo =>
        ln' := ins.intv;
        o := if IsSet(flags, STEP) && ins.intv > 1 then Suspended else Continue;
      case Jump => o, at', ln' := ExecJump(c, at, ln, input);
      case JumpT => o, at', ln' := ExecJumpT(c, at, ln, input);
      case Halt =>
        if IsSet(flags, STEP) {
          flags := SetFlag(flags, HALTED);
        }
        o := Halted;
      case Ip => o := Push(Wrap(ln as int + 1), at, ln, input);
      case Read => o, rest := ExecRead(c, at, ln, input);
      case Start => o := Die(UnknownOpcode(Start), at, ln, input);
    }

    /** One trip round the loop: `ip = ip->next`, then run it. */
    method Step(c: Program, at: nat, ln: i32, input: seq<Literal>)
      returns (o: Outcome, at': nat, ln': i32, out: seq<Out>, rest: seq<Literal>)
      requires Valid() && WellFormed(c) && Resumable(c, at)
      modifies this`top, this`flags, mem, stack
      ensures Valid() && Gives(Engine.Exec(c, old(flags), old(Regs(at, ln)), input), o, at', ln', out, rest)
    {
      var next := c.instrs[at].next.value;
      assert InstrOk(c, at) && InstrOk(c, next);
      o, at', ln', out, rest := ExecAt(c, next, ln, c.instrs[next], input);
    }

    /**
     * One trip inside the loop, from the engine state `st` with `out` printed
     * so far, on the way to the result `goal`.
     */
    method Trip(c: Program, at: nat, ln: i32, input: seq<Literal>, n: nat,
                ghost st: State, out: seq<Out>, ghost goal: StepResult)
      returns (o: Outcome, at': nat, ln': i32, out': seq<Out>, rest: seq<Literal>, ghost st': State, left: nat)
      requires Valid() && WellFormed(c) && Resumable(c, at) && n > 0 && st == Regs(at, ln)
      requires goal == After(out, RunFrom(c, flags, st, input, n))
      modifies this`top, this`flags, mem, stack
      ensures Valid() && st' == Regs(at', ln') && Inv(st') && left < n
      ensures o.Continue? ==> Resumable(c, at') && goal == After(out', RunFrom(c, flags, st', rest, left))
      ensures !o.Continue? ==> goal == StepResult(o, st', flags, out', rest)
    {
      ghost var f := flags;
      left := n - 1;
      var out1;
      o, at', ln', out1, rest := Step(c, at, ln, input);
      st' := Regs(at', ln');
      RunFromUnfold(c, f, st, input, n, left, out, StepResult(o, st', flags, out1, rest));
      out' := out + out1;
    }

    /** The `for (;;)` loop, for at most `fuel` trips. */
    method Run(c: Program, at: nat, ln: i32, input: seq<Literal>, fuel: nat)
      returns (o: Outcome, at': nat, ln': i32, out: seq<Out>, rest: seq<Literal>)
      requires Valid() && WellFormed(c) && Resumable(c, at)
      modifies this`top, this`flags, mem, stack
      ensures Valid() && Gives(RunFrom(c, old(flags), old(Regs(at, ln)), input, fuel), o, at', ln', out, rest)
    {
      ghost var st := Regs(at, ln);
      ghost var goal := RunFrom(c, flags, st, input, fuel);
      o, at', ln', out, rest := Continue, at, ln, [], input;
      assert goal.out == [] + goal.out;
      var n := fuel;
      while o.Continue? && n > 0
        invariant Valid() && st == Regs(at', ln') && Inv(st)
        invariant o.Continue? ==> Resumable(c, at') && goal == After(out, RunFrom(c, flags, st, rest, n))
        invariant !o.Continue? ==> goal == StepResult(o, st, flags, out, rest)
        decreases n
      {
        o, at', ln', out, rest, st, n := Trip(c, at', ln', rest, n, st, out, goal);
      }
    }

    /**
     * `eval_code` (src/vm.c): start from the head of `c`.  The instruction
     * pointer and the line are the VM's own fields there, so they keep their
     * last values whatever the status.
     */
    method EvalCode(c: Program, input: seq<Literal>, fuel: nat)
      returns (sts: int, o: Outcome, out: seq<Out>, rest: seq<Literal>)
      requires Valid() && WellFormed(c)
      modifies this, mem, stack
      ensures Valid() && code == old(code) && ip.Some? && Resumable(c, Head)
      ensures Gives(RunFrom(c, old(flags), old(Regs(Head, lineno)), input, fuel), o, ip.value, lineno, out, rest)
      ensures sts == Status(o)
    {
      HeadResumable(c);
      var at, ln;
      o, at, ln, out, rest := Run(c, Head, lineno, input, fuel);
      ip, lineno := Some(at), ln;
      sts := Status(o);
    }

    /**
     * `evalCode` (src/eval.c): load the registers from the VM, run, and save
     * them back only when the status is 0.
     */
    method EvalCodeResumable(input: seq<Literal>, fuel: nat)
      returns (sts: int, o: Outcome, out: seq<Out>, rest: seq<Literal>)
      requires Valid() && code.Some? && WellFormed(code.value)
      requires ip.Some? && Resumable(code.value, ip.value)
      modifies this, mem, stack
      ensures Valid() && code == old(code) && ip.Some?
      ensures var r := RunFrom(code.value, old(flags), old(Regs(ip.value, lineno)), input, fuel);
        && r.outcome == o && r.out == out && r.input == rest && r.flags == flags
        && r.state.mem == mem[..] && r.state.stack == stack[..] && r.state.top == top
        && (if sts == 0 then ip == Some(r.state.ip) && lineno == r.state.lineno
            else ip == old(ip) && lineno == old(lineno))
      ensures sts == Status(o)
    {
      var c := code.value;
      var at, ln := ip.value, lineno;
      o, at, ln, out, rest := Run(c, at, ln, input, fuel);
      sts := Status(o);
      if sts == 0 {
        ip, lineno := Some(at), ln;
      }
    }
  }
}
