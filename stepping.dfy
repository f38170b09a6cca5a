/**
 * Step mode against batch mode.  The debugger runs a program with STEP set
 * and resumes it after every suspension; `run` and `eval_code` run it with
 * STEP clear.  The engine treats the two alike except in three places: a
 * WRITE_INT or WRITE_STR ends the line in step mode only, a taken jump sets
 * the current line in step mode only, and HALT raises HALTED in step mode
 * only.
 *
 * When every jump-table entry is followed by a SETLINENO (the line the jump
 * lands on sets the line number again at once), both ways of running end in
 * the same state with the same outcome, the same input consumed and the same
 * items printed; only the line ends differ.  Without that layout a jump in
 * batch mode leaves the old line current, and IP then pushes a different
 * value.
 */
module Stepping {
  import opened Int32
  import opened Flags
  import opened Bytecode
  import opened Wrappers
  import opened Engine
  import opened EngineProps

  /** The instruction the engine fetches after `i`. */
  function Successor(c: Program, i: nat): (j: nat)
    requires WellFormed(c) && Resumable(c, i)
    ensures j < |c.instrs|
  {
    assert InstrOk(c, i);
    c.instrs[i].next.value
  }

  /** Every jump resumes at a SETLINENO: the instruction after each jump-table entry sets the line. */
  predicate JumpsLandOnLines(c: Program)
    requires WellFormed(c)
  {
    forall k :: 0 <= k < |c.jumps| ==> c.instrs[Successor(c, c.jumps[k])].opcode == SetLineNo
  }

  /** What was printed, without the line ends. */
  function Visible(out: seq<Out>): seq<Out> {
    if |out| == 0 then [] else (if out[0].Newline? then [] else [out[0]]) + Visible(out[1..])
  }

  lemma {:induction false} VisibleAppend(a: seq<Out>, b: seq<Out>)
    ensures Visible(a + b) == Visible(a) + Visible(b)
    decreases |a|
  {
    if |a| == 0 {
      assert a + b == b;
    } else {
      assert (a + b)[1..] == a[1..] + b;
      VisibleAppend(a[1..], b);
    }
  }

  /**
   * The batch state `b` and the stepped state `t` are the same, except that
   * `t` may hold another current line when the next instruction is a
   * SETLINENO, which sets the line in both.
   */
  predicate Agree(c: Program, b: State, t: State)
    requires WellFormed(c)
  {
    b.(lineno := t.lineno) == t
    && (b.lineno != t.lineno ==> Resumable(c, t.ip) && c.instrs[Successor(c, t.ip)].opcode == SetLineNo)
  }

  /** The debugger's way of running: trips in step mode, resuming after every suspension. */
  function Stepped(c: Program, s: State, input: seq<Literal>, fuel: nat): (r: StepResult)
    requires WellFormed(c) && Resumable(c, s.ip) && Inv(s)
    ensures !r.outcome.Suspended?
    decreases fuel, 0
  {
    if fuel == 0 then StepResult(Continue, s, STEP, [], input)
    else StepOn(c, Exec(c, STEP, s, input), fuel - 1)
  }

  /** After the step-mode trip `r`: go on, with `fuel` trips left, unless the trip halted or faulted. */
  function StepOn(c: Program, r: StepResult, fuel: nat): (t: StepResult)
    requires WellFormed(c)
    requires (r.outcome.Continue? || r.outcome.Suspended?) ==> Resumable(c, r.state.ip) && Inv(r.state)
    ensures (r.outcome.Halted? || r.outcome.Fault?) ==> t == r
    ensures !t.outcome.Suspended?
    decreases fuel, 1
  {
    if r.outcome.Continue? || r.outcome.Suspended? then After(r.out, Stepped(c, r.state, r.input, fuel)) else r
  }

  /** The two results agree on everything but the outcome: the input consumed, what was printed, the state. */
  predicate Related(c: Program, rb: StepResult, rt: StepResult)
    requires WellFormed(c)
  {
    rb.input == rt.input && Visible(rb.out) == Visible(rt.out)
    && Agree(c, rb.state, rt.state)
    && (!rb.outcome.Continue? ==> rb.state == rt.state)
  }

  /** The two trips agree; the stepped one may suspend where the batch one goes on. */
  predicate TripsAgree(c: Program, rb: StepResult, rt: StepResult)
    requires WellFormed(c)
  {
    (rb.outcome == rt.outcome || (rb.outcome.Continue? && rt.outcome.Suspended?))
    && Related(c, rb, rt)
  }

  /** Two results that differ in their flags at most. */
  predicate SameBut(rb: StepResult, rt: StepResult) {
    rb.outcome == rt.outcome && rb.state == rt.state && rb.out == rt.out && rb.input == rt.input
  }

  /** The opcodes whose execution does not look at the flags. */
  predicate Blind(op: Opcode) {
    !IsWrite(op) && !op.Jump? && !op.JumpT? && !op.SetLineNo? && !op.Halt?
  }

  lemma PushBlind(s: State, x: i32, input: seq<Literal>)
    requires Inv(s)
    ensures SameBut(Push(s, 0, x, input), Push(s, STEP, x, input))
  {
  }

  /** An opcode that does not look at the flags does the same in both modes. */
  lemma BlindSame(c: Program, s: State, ins: Instr, input: seq<Literal>)
    requires JumpsOk(c) && Inv(s) && Resumable(c, s.ip) && Blind(ins.opcode)
    ensures SameBut(ExecAt(c, 0, s, ins, input), ExecAt(c, STEP, s, ins, input))
  {
    if IsBinary(ins.opcode) {
      assert SameBut(Binary(c, 0, s, ins.opcode, input), Binary(c, STEP, s, ins.opcode, input));
    } else {
      match ins.opcode
      case Int => PushBlind(s, ins.intv, input);
      case Ip => PushBlind(s, Wrap(s.lineno as int + 1), input);
      case Set => assert SameBut(ExecSet(c, 0, s, input), ExecSet(c, STEP, s, input));
      case Mem => assert SameBut(ExecMem(c, 0, s, input), ExecMem(c, STEP, s, input));
      case Read => assert SameBut(ExecRead(c, 0, s, input), ExecRead(c, STEP, s, input));
      case Start =>
    }
  }

  /** Same agreement whatever is printed, once line ends are dropped. */
  lemma SingleVisible(item: Out)
    requires !item.Newline?
    ensures Visible([item]) == [item] && Visible([item, Newline]) == [item]
  {
    assert [item][1..] == [];
    assert [item, Newline][1..] == [Newline] && [Newline][1..] == [];
  }

  /** The write opcodes print the same item in both modes; step mode may add a line end. */
  lemma WriteAgrees(c: Program, s: State, ins: Instr, input: seq<Literal>)
    requires WellFormed(c) && Inv(s) && Resumable(c, s.ip)
    requires IsWrite(ins.opcode) && (WritesString(ins.opcode) ==> ins.strv.Some?)
    ensures TripsAgree(c, ExecWrite(c, 0, s, ins, input), ExecWrite(c, STEP, s, ins, input))
  {
    var rb := ExecWrite(c, 0, s, ins, input);
    var rt := ExecWrite(c, STEP, s, ins, input);
    if rb.outcome.Continue? {
      assert |rb.out| > 0 && !rb.out[0].Newline?;
      SingleVisible(rb.out[0]);
      assert rt.out == [rb.out[0], Newline];
      assert rb.out == [rb.out[0]] || rb.out == [rb.out[0], Newline];
    }
  }

  /** A jump or a conditional jump: step mode sets the line, batch mode leaves it for the SETLINENO it lands on. */
  lemma JumpAgrees(c: Program, s: State, op: Opcode, input: seq<Literal>)
    requires WellFormed(c) && JumpsLandOnLines(c) && Inv(s) && Resumable(c, s.ip)
    requires op.Jump? || op.JumpT?
    ensures var rb := if op.Jump? then ExecJump(c, 0, s, input) else ExecJumpT(c, 0, s, input);
      var rt := if op.Jump? then ExecJump(c, STEP, s, input) else ExecJumpT(c, STEP, s, input);
      TripsAgree(c, rb, rt)
  {
    var n := if op.Jump? then 1 else 2;
    if s.top >= n {
      var q := s.stack[s.top - n];
      if 1 <= q as int < c.size {
        assert Resumable(c, c.jumps[q - 1]);
        assert c.instrs[Successor(c, c.jumps[q - 1])].opcode == SetLineNo;
      }
    }
  }

  /** A trip from equal states. */
  lemma EqualTripAgrees(c: Program, s: State, input: seq<Literal>)
    requires WellFormed(c) && JumpsLandOnLines(c) && Resumable(c, s.ip) && Inv(s)
    ensures TripsAgree(c, Exec(c, 0, s, input), Exec(c, STEP, s, input))
  {
    Dispatch(c, 0, s, input);
    Dispatch(c, STEP, s, input);
    var at := Fetched(c, s);
    var ins := c.instrs[at];
    var s1 := s.(ip := at);
    if IsWrite(ins.opcode) {
      WriteAgrees(c, s1, ins, input);
    } else if ins.opcode.Jump? || ins.opcode.JumpT? {
      JumpAgrees(c, s1, ins.opcode, input);
    } else if !ins.opcode.SetLineNo? && !ins.opcode.Halt? {
      assert ExecAt(c, 0, s1, ins, input) == Exec(c, 0, s, input);
      assert ExecAt(c, STEP, s1, ins, input) == Exec(c, STEP, s, input);
      BlindSame(c, s1, ins, input);
    }
  }

  /** A trip from a state whose line is about to be set: both run the same SETLINENO. */
  lemma PendingTripAgrees(c: Program, b: State, t: State, input: seq<Literal>)
    requires WellFormed(c) && Resumable(c, b.ip) && Inv(b) && Agree(c, b, t) && b.lineno != t.lineno
    ensures Resumable(c, t.ip) && Inv(t)
    ensures TripsAgree(c, Exec(c, 0, b, input), Exec(c, STEP, t, input))
  {
    var at := Fetched(c, b);
    assert at == Fetched(c, t) == Successor(c, t.ip);
    assert Exec(c, 0, b, input) == ExecAt(c, 0, b.(ip := at), c.instrs[at], input);
    assert Exec(c, STEP, t, input) == ExecAt(c, STEP, t.(ip := at), c.instrs[at], input);
  }

  /** One trip in batch mode and one in step mode, from agreeing states, agree. */
  lemma TripAgrees(c: Program, b: State, t: State, input: seq<Literal>)
    requires WellFormed(c) && JumpsLandOnLines(c) && Resumable(c, b.ip) && Inv(b) && Agree(c, b, t)
    ensures Resumable(c, t.ip) && Inv(t)
    ensures TripsAgree(c, Exec(c, 0, b, input), Exec(c, STEP, t, input))
  {
    if b.lineno != t.lineno {
      PendingTripAgrees(c, b, t, input);
    } else {
      assert b == t;
      EqualTripAgrees(c, b, input);
    }
  }

  /** Printing the same before two related results keeps them related. */
  lemma AfterRelated(c: Program, x: seq<Out>, y: seq<Out>, rb: StepResult, rt: StepResult)
    requires WellFormed(c) && Visible(x) == Visible(y) && Related(c, rb, rt)
    ensures Related(c, After(x, rb), After(y, rt))
  {
    VisibleAppend(x, rb.out);
    VisibleAppend(y, rt.out);
  }

  /**
   * A batch run and the stepped run from agreeing states, with the same
   * number of trips, agree: the same outcome, the same input consumed, the
   * same items printed, and the same final state once the run has stopped.
   */
  lemma {:induction false} RunAgrees(c: Program, b: State, t: State, input: seq<Literal>, fuel: nat)
    requires WellFormed(c) && JumpsLandOnLines(c) && Resumable(c, b.ip) && Inv(b) && Agree(c, b, t)
    ensures Resumable(c, t.ip) && Inv(t)
    ensures RunFrom(c, 0, b, input, fuel).outcome == Stepped(c, t, input, fuel).outcome
    ensures Related(c, RunFrom(c, 0, b, input, fuel), Stepped(c, t, input, fuel))
    decreases fuel, 0
  {
    TripAgrees(c, b, t, input);
    if fuel > 0 {
      ResumeAgrees(c, Exec(c, 0, b, input), Exec(c, STEP, t, input), fuel - 1);
    }
  }

  /** The same for the rest of the two runs after two agreeing trips. */
  lemma {:induction false} ResumeAgrees(c: Program, eb: StepResult, et: StepResult, fuel: nat)
    requires WellFormed(c) && JumpsLandOnLines(c) && TripsAgree(c, eb, et)
    requires eb.flags == 0 && !eb.outcome.Suspended?
    requires eb.outcome.Continue? ==> Resumable(c, eb.state.ip) && Inv(eb.state)
    requires (et.outcome.Continue? || et.outcome.Suspended?) ==> Resumable(c, et.state.ip) && Inv(et.state)
    ensures Resume(c, eb, fuel).outcome == StepOn(c, et, fuel).outcome
    ensures Related(c, Resume(c, eb, fuel), StepOn(c, et, fuel))
    decreases fuel, 1
  {
    if eb.outcome.Continue? {
      RunAgrees(c, eb.state, et.state, eb.input, fuel);
      AfterRelated(c, eb.out, et.out, RunFrom(c, 0, eb.state, eb.input, fuel), Stepped(c, et.state, et.input, fuel));
    }
  }

  /**
   * Running to completion and stepping through the same program from the
   * same state end alike: the same outcome (HALT or the same fault), the
   * same final memory, stack and registers, the same input consumed and the
   * same items printed.
   */
  lemma RunMatchesStepping(c: Program, s: State, input: seq<Literal>, fuel: nat)
    requires WellFormed(c) && JumpsLandOnLines(c) && Resumable(c, s.ip) && Inv(s)
    requires !RunFrom(c, 0, s, input, fuel).outcome.Continue?
    ensures var b := RunFrom(c, 0, s, input, fuel);
      var t := Stepped(c, s, input, fuel);
      && t.outcome == b.outcome && t.state == b.state && t.input == b.input
      && Visible(t.out) == Visible(b.out)
  {
    RunAgrees(c, s, s, input, fuel);
  }

  /** Once the stepped run has stopped, more fuel changes nothing. */
  lemma {:induction false} SteppedMoreFuel(c: Program, s: State, input: seq<Literal>, a: nat, b: nat)
    requires WellFormed(c) && Resumable(c, s.ip) && Inv(s)
    requires !Stepped(c, s, input, a).outcome.Continue?
    ensures Stepped(c, s, input, a + b) == Stepped(c, s, input, a)
    decreases a, 0
  {
    StepOnMoreFuel(c, Exec(c, STEP, s, input), a - 1, b);
    assert a + b - 1 == a - 1 + b;
  }

  /** The same for the rest of the stepped run after the trip `r`. */
  lemma {:induction false} StepOnMoreFuel(c: Program, r: StepResult, a: nat, b: nat)
    requires WellFormed(c) && ((r.outcome.Continue? || r.outcome.Suspended?) ==> Resumable(c, r.state.ip) && Inv(r.state))
    requires !StepOn(c, r, a).outcome.Continue?
    ensures StepOn(c, r, a + b) == StepOn(c, r, a)
    decreases a, 1
  {
    if r.outcome.Continue? || r.outcome.Suspended? {
      SteppedMoreFuel(c, r.state, r.input, a, b);
    }
  }

  lemma AfterAfter(x: seq<Out>, y: seq<Out>, r: StepResult)
    ensures After(x, After(y, r)) == After(x + y, r)
  {
    assert x + (y + r.out) == (x + y) + r.out;
  }

  /**
   * The stepped run is the debugger's `next` given again and again: a
   * step-mode run that suspends is followed by the stepped run from where it
   * stopped.
   */
  lemma {:induction false} SteppingIsRounds(c: Program, s: State, input: seq<Literal>, n: nat, m: nat)
    requires WellFormed(c) && Resumable(c, s.ip) && Inv(s)
    requires RunFrom(c, STEP, s, input, n).outcome.Suspended?
    requires var r := RunFrom(c, STEP, s, input, n); !Stepped(c, r.state, r.input, m).outcome.Continue?
    ensures var r := RunFrom(c, STEP, s, input, n);
      Stepped(c, s, input, n + m) == After(r.out, Stepped(c, r.state, r.input, m))
    decreases n, 0
  {
    assert n + m - 1 == n - 1 + m;
    ResumeIsRounds(c, Exec(c, STEP, s, input), n - 1, m);
  }

  /** The same for the rest of the round after the step-mode trip `e`. */
  lemma {:induction false} ResumeIsRounds(c: Program, e: StepResult, k: nat, m: nat)
    requires WellFormed(c) && (e.outcome.Continue? ==> e.flags == STEP)
    requires (e.outcome.Continue? || e.outcome.Suspended?) ==> Resumable(c, e.state.ip) && Inv(e.state)
    requires Resume(c, e, k).outcome.Suspended?
    requires var r := Resume(c, e, k); !Stepped(c, r.state, r.input, m).outcome.Continue?
    ensures var r := Resume(c, e, k);
      StepOn(c, e, k + m) == After(r.out, Stepped(c, r.state, r.input, m))
    decreases k, 1
  {
    if e.outcome.Continue? {
      SteppingIsRounds(c, e.state, e.input, k, m);
      var r1 := RunFrom(c, STEP, e.state, e.input, k);
      AfterAfter(e.out, r1.out, Stepped(c, r1.state, r1.input, m));
    } else {
      SteppedMoreFuel(c, e.state, e.input, m, k);
      assert m + k == k + m;
    }
  }

  /** A step-mode run that halts or faults is the stepped run itself. */
  lemma {:induction false} StoppedRoundIsStepped(c: Program, s: State, input: seq<Literal>, n: nat)
    requires WellFormed(c) && Resumable(c, s.ip) && Inv(s)
    requires RunFrom(c, STEP, s, input, n).outcome.Halted? || RunFrom(c, STEP, s, input, n).outcome.Fault?
    ensures Stepped(c, s, input, n) == RunFrom(c, STEP, s, input, n)
    decreases n, 0
  {
    StoppedResumeIsStepOn(c, Exec(c, STEP, s, input), n - 1);
  }

  /** The same for the rest of the round after the step-mode trip `e`. */
  lemma {:induction false} StoppedResumeIsStepOn(c: Program, e: StepResult, k: nat)
    requires WellFormed(c) && (e.outcome.Continue? ==> e.flags == STEP)
    requires (e.outcome.Continue? || e.outcome.Suspended?) ==> Resumable(c, e.state.ip) && Inv(e.state)
    requires Resume(c, e, k).outcome.Halted? || Resume(c, e, k).outcome.Fault?
    ensures StepOn(c, e, k) == Resume(c, e, k)
    decreases k, 1
  {
    if e.outcome.Continue? {
      StoppedRoundIsStepped(c, e.state, e.input, k);
    }
  }

  /** WRITE_STR ends the line in step mode only. */
  lemma NewlineOnlyWhenStepping()
    ensures var c := Program([Instr(Start, -1, None, Some(1)), Instr(WriteStr, -1, Some("a"), Some(2)),
                              Instr(Halt, -1, None, None)], 1, []);
      var s := State(Head, 1, [], [], 0);
      && WellFormed(c) && JumpsLandOnLines(c)
      && RunFrom(c, 0, s, [], 2).out == [OutStr("a")]
      && Stepped(c, s, [], 2).out == [OutStr("a"), Newline]
  {
    var c := Program([Instr(Start, -1, None, Some(1)), Instr(WriteStr, -1, Some("a"), Some(2)),
                      Instr(Halt, -1, None, None)], 1, []);
    var s := State(Head, 1, [], [], 0);
    assert InstrOk(c, 0) && InstrOk(c, 1) && InstrOk(c, 2);
    var b1 := Exec(c, 0, s, []);
    assert b1 == StepResult(Continue, s.(ip := 1), 0, [OutStr("a")], []);
    var t1 := Exec(c, STEP, s, []);
    assert t1 == StepResult(Continue, s.(ip := 1), STEP, [OutStr("a"), Newline], []);
    assert Exec(c, 0, s.(ip := 1), []).out == [];
    assert Exec(c, STEP, s.(ip := 1), []).out == [];
  }

  /** `INT 2; JUMP; IP; HALT` on lines 1 and 2, with the jump-table entry for line 2 followed by IP. */
  function StaleProgram(): Program {
    Program([Instr(Start, -1, None, Some(1)), Instr(Int, 2, None, Some(2)),
             Instr(Jump, -1, None, Some(3)), Instr(Ip, -1, None, Some(4)),
             Instr(Halt, -1, None, None)], 3, [2, 2])
  }

  lemma StaleProgramWellFormed()
    ensures WellFormed(StaleProgram()) && !JumpsLandOnLines(StaleProgram())
  {
    var c := StaleProgram();
    forall i: nat | i < |c.instrs| ensures InstrOk(c, i) {
      assert i == 0 || i == 1 || i == 2 || i == 3 || i == 4;
    }
    assert JumpsOk(c);
    assert Successor(c, c.jumps[0]) == 3;
  }

  /** The first two trips: INT 2, then JUMP, which suspends in step mode only and sets the line then. */
  lemma StaleFirstTrips()
    requires WellFormed(StaleProgram())
    ensures var c := StaleProgram();
      var s := State(Head, 1, [], [0, 0], 0);
      var s1 := State(1, 1, [], [2, 0], 1);
      && Exec(c, 0, s, []) == StepResult(Continue, s1, 0, [], [])
      && Exec(c, STEP, s, []) == StepResult(Continue, s1, STEP, [], [])
      && Exec(c, 0, s1, []) == StepResult(Continue, State(2, 1, [], [2, 0], 0), 0, [], [])
      && Exec(c, STEP, s1, []) == StepResult(Suspended, State(2, 2, [], [2, 0], 0), STEP, [], [])
  {
    var c := StaleProgram();
    var s1 := State(1, 1, [], [2, 0], 1);
    assert Fetched(c, s1) == 2;
    assert c.instrs[2].opcode == Jump;
  }

  /** The last two trips: IP pushes the current line plus one, then HALT. */
  lemma StaleLastTrips(line: i32)
    requires WellFormed(StaleProgram()) && (line == 1 || line == 2)
    ensures var c := StaleProgram();
      var s2 := State(2, line, [], [2, 0], 0);
      var s3 := State(3, line, [], [line + 1, 0], 1);
      && Exec(c, 0, s2, []) == StepResult(Continue, s3, 0, [], [])
      && Exec(c, STEP, s2, []) == StepResult(Continue, s3, STEP, [], [])
      && Exec(c, 0, s3, []) == StepResult(Halted, s3.(ip := 4), 0, [], [])
      && Exec(c, STEP, s3, []) == StepResult(Halted, s3.(ip := 4), SetFlag(STEP, HALTED), [], [])
  {
    var c := StaleProgram();
    assert Wrap(line as int + 1) == line + 1;
  }

  /**
   * Without the layout, a jump in batch mode leaves the old line current: in
   * `INT 2; JUMP; IP; HALT` whose jump-table entry for line 2 is followed by
   * IP, the batch run pushes 2 (line 1 plus one) and the stepped run pushes 3.
   */
  lemma StaleLineAfterJump()
    ensures var c := StaleProgram();
      var s := State(Head, 1, [], [0, 0], 0);
      && WellFormed(c) && !JumpsLandOnLines(c)
      && RunFrom(c, 0, s, [], 4).state.stack[0] == 2
      && Stepped(c, s, [], 4).state.stack[0] == 3
  {
    StaleProgramWellFormed();
    StaleFirstTrips();
    StaleLastTrips(1);
    StaleLastTrips(2);
    var c := StaleProgram();
    var s := State(Head, 1, [], [0, 0], 0);
    var s1 := State(1, 1, [], [2, 0], 1);
    var b3 := State(3, 1, [], [2, 0], 1);
    var t3 := State(3, 2, [], [3, 0], 1);
    var bh := StepResult(Halted, b3.(ip := 4), 0, [], []);
    var th := StepResult(Halted, t3.(ip := 4), SetFlag(STEP, HALTED), [], []);
    assert RunFrom(c, 0, b3, [], 1) == bh;
    assert RunFrom(c, 0, State(2, 1, [], [2, 0], 0), [], 2) == bh;
    assert RunFrom(c, 0, s1, [], 3) == bh;
    assert RunFrom(c, 0, s, [], 4) == bh;
    assert Stepped(c, t3, [], 1) == th;
    assert Stepped(c, State(2, 2, [], [2, 0], 0), [], 2) == th;
    assert Stepped(c, s1, [], 3) == th;
    assert Stepped(c, s, [], 4) == th;
  }
}
