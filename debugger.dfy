/**
 * The interactive debugger of src/debug.c: the commands that restart, step,
 * run and inspect a VM, and `runCommand`, which looks a line up in the
 * command table and runs the command's callback.
 *
 * A session keeps one invariant between commands: while step mode is on the
 * saved instruction can be resumed from, and HALTED is never left set (the
 * `next` command clears all flags when it sees it).
 */
module Debugger {
  import opened Int32
  import opened Flags
  import opened Wrappers
  import opened Bytecode
  import opened Engine
  import opened Machine
  import opened Answers
  import opened MemoryView
  import opened CodeView
  import opened CommandTable

  /** What a callback returns to the command loop; QUIT ends it. */
  const CONTINUE: int := 0
  const QUIT: int := 1

  function Zeros(n: nat): (z: seq<i32>)
    ensures |z| == n && AllZero(z)
  {
    seq(n, _ => 0)
  }

  /** The engine state `re` leaves: head, line 1, zeroed memory, empty zeroed stack. */
  function Restarted(ms: nat, ss: nat): (s: State)
    ensures s.ip == Head && s.lineno == 1 && s.top == 0 && Inv(s)
    ensures |s.mem| == ms && AllZero(s.mem) && |s.stack| == ss && AllZero(s.stack)
  {
    State(Head, 1, Zeros(ms), Zeros(ss), 0)
  }

  /** A run from the restarted state; the head can always be resumed from. */
  function RunRestarted(c: Program, flags: Flags, ms: nat, ss: nat, input: seq<Literal>, fuel: nat): (r: StepResult)
    requires WellFormed(c)
    ensures Sound(c, flags, Restarted(ms, ss), r)
  {
    HeadResumable(c);
    RunFrom(c, flags, Restarted(ms, ss), input, fuel)
  }

  ghost predicate Session(v: VM)
    reads v
  {
    v.Valid() && v.code.Some? && WellFormed(v.code.value) && v.ip.Some?
    && (IsSet(v.flags, STEP) ==> Resumable(v.code.value, v.ip.value))
    && !IsSet(v.flags, HALTED)
  }

  /** A freshly built `initVM` machine is a session. */
  lemma InitialSession(v: VM)
    requires v.Valid() && v.code.Some? && WellFormed(v.code.value)
    requires v.ip == Some(Head) && v.flags == 0
    ensures Session(v)
  {
  }

  /**
   * `re`: put the machine back as `initVM` built it: instruction pointer on
   * the head, line 1, memory and stack zeroed, the stack empty, no flags.
   */
  method Re(v: VM)
    requires v.Valid() && v.code.Some?
    modifies v, v.mem, v.stack
    ensures v.Valid() && v.code == old(v.code)
    ensures v.ip == Some(Head) && v.lineno == 1 && v.top == 0 && v.flags == 0
    ensures v.Regs(Head, 1) == Restarted(v.mem.Length, v.stack.Length)
  {
    v.ip := Some(Head);
    v.lineno := 1;
    var i := 0;
    while i < v.mem.Length
      invariant 0 <= i <= v.mem.Length
      invariant forall k :: 0 <= k < i ==> v.mem[k] == 0
      invariant v.ip == Some(Head) && v.lineno == 1 && v.code == old(v.code)
      invariant v.top == old(v.top) && v.Valid()
    {
      v.mem[i] := 0;
      i := i + 1;
    }
    v.top := 0;
    i := 0;
    while i < v.stack.Length
      invariant 0 <= i <= v.stack.Length
      invariant forall k :: 0 <= k < i ==> v.stack[k] == 0
      invariant forall k :: 0 <= k < v.mem.Length ==> v.mem[k] == 0
      invariant v.ip == Some(Head) && v.lineno == 1 && v.top == 0 && v.code == old(v.code)
      invariant v.Valid()
    {
      v.stack[i] := 0;
      i := i + 1;
    }
    v.flags := 0;
    assert v.mem[..] == Zeros(v.mem.Length);
    assert v.stack[..] == Zeros(v.stack.Length);
  }

  datatype Report = Stepped | Finished | Aborted

  /**
   * `next`: enter step mode unless it is on (restart the machine, then set
   * STEP), show the current line, run to the next suspension, and leave
   * step mode when the program halted ("Debug finished") or faulted
   * ("Debug aborted").
   */
  /**
   * What `next` leaves: entering step mode restarts the machine; the run goes
   * from the restarted or the saved registers; HALT or a fault clears every
   * flag, and a fault keeps the registers the run started from.
   */
  twostate predicate NextDone(v: VM, input: seq<Literal>, fuel: nat,
                              shown: i32, report: Report, o: Outcome, out: seq<Out>, rest: seq<Literal>)
    reads v, v.mem, v.stack
  {
    old(Session(v)) && v.code == old(v.code)
    && var c := old(v.code).value;
    var entering := !IsSet(old(v.flags), STEP);
    var f := if entering then STEP else old(v.flags);
    var st := if entering then Restarted(v.mem.Length, v.stack.Length) else old(v.Regs(v.ip.value, v.lineno));
    var r := if entering then RunRestarted(c, f, v.mem.Length, v.stack.Length, input, fuel)
      else RunFrom(c, f, st, input, fuel);
    && shown == st.lineno && o == r.outcome && out == r.out && rest == r.input
    && report == (if o.Halted? then Finished else if o.Fault? then Aborted else Stepped)
    && v.flags == (if o.Halted? || o.Fault? then 0 else f)
    && v.mem[..] == r.state.mem && v.stack[..] == r.state.stack && v.top == r.state.top
    && v.ip == Some(if o.Fault? then st.ip else r.state.ip)
    && v.lineno == (if o.Fault? then st.lineno else r.state.lineno)
  }

  /**
   * `next`: enter step mode unless it is on (restart the machine, then set
   * STEP), show the current line, run to the next suspension, and leave
   * step mode when the program halted ("Debug finished") or faulted
   * ("Debug aborted").
   */
  method NextCmd(v: VM, input: seq<Literal>, fuel: nat)
    returns (shown: i32, report: Report, o: Outcome, out: seq<Out>, rest: seq<Literal>)
    requires Session(v)
    modifies v, v.mem, v.stack
    ensures Session(v) && v.code == old(v.code)
    ensures NextDone(v, input, fuel, shown, report, o, out, rest)
  {
    if !IsSet(v.flags, STEP) {
      Re(v);
      v.flags := SetFlag(v.flags, STEP);
      HeadResumable(v.code.value);
    }
    shown := v.lineno;
    var sts;
    sts, o, out, rest := v.EvalCodeResumable(input, fuel);
    if IsSet(v.flags, HALTED) {
      v.flags := 0;
      report := Finished;
    } else if sts != 0 {
      v.flags := 0;
      report := Aborted;
    } else {
      report := Stepped;
    }
  }

  /**
   * What `run` leaves: in step mode only a yes restarts; a restart runs the
   * machine from the restarted registers with no flags, and a fault keeps
   * the instruction pointer on the head and the line at 1.
   */
  twostate predicate RunDone(v: VM, answers: seq<string>, input: seq<Literal>, fuel: nat,
                             ran: bool, new reply: Option<Reply>, answersLeft: seq<string>,
                             o: Outcome, out: seq<Out>, rest: seq<Literal>)
    reads v, v.mem, v.stack
  {
    old(Session(v)) && v.code == old(v.code)
    && (!IsSet(old(v.flags), STEP) ==> reply == None && answersLeft == answers)
    && (IsSet(old(v.flags), STEP) ==> Answered(answers, reply, answersLeft))
    && (ran <==> !IsSet(old(v.flags), STEP) || reply == Some(Yes))
    && (!ran ==> unchanged(v) && unchanged(v.mem) && unchanged(v.stack))
    && (ran ==> var r := RunRestarted(old(v.code).value, 0, v.mem.Length, v.stack.Length, input, fuel);
      && o == r.outcome && out == r.out && rest == r.input && !o.Suspended? && v.flags == 0
      && v.mem[..] == r.state.mem && v.stack[..] == r.state.stack && v.top == r.state.top
      && v.ip == Some(if o.Fault? then Head else r.state.ip)
      && v.lineno == (if o.Fault? then 1 else r.state.lineno))
  }

  /**
   * `run`: in step mode ask whether to start again, and stop unless the
   * answer is yes; then restart the machine and run it.  The restart
   * clears STEP, so the run is a batch run that never suspends.
   */
  method RunCmd(v: VM, answers: seq<string>, input: seq<Literal>, fuel: nat)
    returns (ran: bool, reply: Option<Reply>, answersLeft: seq<string>,
             o: Outcome, out: seq<Out>, rest: seq<Literal>)
    requires Session(v)
    modifies v, v.mem, v.stack
    ensures Session(v) && v.code == old(v.code)
    ensures RunDone(v, answers, input, fuel, ran, reply, answersLeft, o, out, rest)
  {
    reply, answersLeft := None, answers;
    o, out, rest := Continue, [], input;
    if IsSet(v.flags, STEP) {
      reply, answersLeft := Ask(answers);
      if reply != Some(Yes) {
        return false, reply, answersLeft, o, out, rest;
      }
    }
    Re(v);
    HeadResumable(v.code.value);
    var sts;
    sts, o, out, rest := v.EvalCodeResumable(input, fuel);
    ran := true;
  }

  /** `quit`: leave at once unless step mode is on; then only on a yes. */
  method QuitCmd(v: VM, answers: seq<string>) returns (sts: int, reply: Option<Reply>, answersLeft: seq<string>)
    ensures !IsSet(v.flags, STEP) ==> reply == None && answersLeft == answers
    ensures IsSet(v.flags, STEP) ==> Answered(answers, reply, answersLeft)
    ensures sts == QUIT <==> !IsSet(v.flags, STEP) || reply == Some(Yes)
    ensures sts == CONTINUE || sts == QUIT
  {
    if IsSet(v.flags, STEP) {
      reply, answersLeft := Ask(answers);
      if reply == Some(Yes) {
        return QUIT, reply, answersLeft;
      }
      return CONTINUE, reply, answersLeft;
    }
    return QUIT, None, answers;
  }

  /** `ip`: the current line, shown only in step mode. */
  method IpCmd(v: VM) returns (shown: Option<i32>)
    ensures shown.Some? <==> IsSet(v.flags, STEP)
    ensures shown.Some? ==> shown.value == v.lineno
  {
    if IsSet(v.flags, STEP) {
      shown := Some(v.lineno);
    } else {
      shown := None;
    }
  }

  /** `list`: the numbers of the source lines printed, 1 to `size - 1`. */
  method ListCmd(v: VM) returns (lines: seq<int>)
    requires v.code.Some?
    ensures |lines| == (if v.code.value.size > 1 then v.code.value.size - 1 else 0)
    ensures forall k :: 0 <= k < |lines| ==> lines[k] == k + 1
  {
    lines := [];
    var i := 0;
    while i < v.code.value.size - 1
      invariant 0 <= i && |lines| == i
      invariant i <= v.code.value.size - 1 || i == 0
      invariant forall k :: 0 <= k < i ==> lines[k] == k + 1
    {
      lines := lines + [i + 1];
      i := i + 1;
    }
  }

  /** `memory`: the rows of the data memory, with the skipped cell restored. */
  method MemCmd(v: VM) returns (rows: seq<MemRow>)
    ensures rows == Rows(v.mem[..], 0)
    ensures Shown(rows) == v.mem[..]
  {
    rows := MemRowsFixed(v.mem);
    RowsShowAll(v.mem[..], 0);
  }

  /** `dump`: walk the list from the head, one line per instruction. */
  method DumpCmd(v: VM) returns (lines: seq<DumpLine>)
    requires v.code.Some? && WellFormed(v.code.value)
    ensures lines == DumpFrom(v.code.value, Head)
  {
    var c := v.code.value;
    lines := [];
    var o: Option<nat> := Some(Head);
    while o.Some?
      invariant o.Some? ==> o.value < |c.instrs| && lines + DumpFrom(c, o.value) == DumpFrom(c, Head)
      invariant o.None? ==> lines == DumpFrom(c, Head)
      decreases if o.Some? then |c.instrs| - o.value else 0, if o.Some? then 1 else 0
    {
      var ins := c.instrs[o.value];
      DumpAppend(c, lines, o.value);
      lines := lines + [ShowInstr(ins)];
      o := ins.next;
    }
  }

  /** One more line of the dump, with the lines printed so far. */
  lemma DumpAppend(c: Program, lines: seq<DumpLine>, i: nat)
    requires WellFormed(c) && i < |c.instrs|
    ensures c.instrs[i].next.Some? ==> (i < c.instrs[i].next.value < |c.instrs|
      && (lines + [ShowInstr(c.instrs[i])]) + DumpFrom(c, c.instrs[i].next.value) == lines + DumpFrom(c, i))
    ensures c.instrs[i].next.None? ==> lines + [ShowInstr(c.instrs[i])] == lines + DumpFrom(c, i)
  {
    DumpStep(c, i);
    if c.instrs[i].next.Some? {
      Regroup(lines, ShowInstr(c.instrs[i]), DumpFrom(c, c.instrs[i].next.value));
    }
  }

  /** `help`: each command's name and the letter that abbreviates it. */
  method HelpCmd() returns (entries: seq<(string, char)>)
    ensures |entries| == |Cmds|
    ensures forall k :: 0 <= k < |Cmds| ==> entries[k] == (Cmds[k].name, Cmds[k].name[0])
  {
    InitialsDistinct();
    entries := [];
    var k := 0;
    while k < |Cmds|
      invariant 0 <= k <= |Cmds| && |entries| == k
      invariant forall j :: 0 <= j < k ==> entries[j] == (Cmds[j].name, Cmds[j].name[0])
    {
      entries := entries + [(Cmds[k].name, Cmds[k].name[0])];
      k := k + 1;
    }
  }

  /** What a command shows. */
  datatype Response =
    | Undefined(text: string)
    | NextShown(line: i32, report: Report, outcome: Outcome, out: seq<Out>)
    | RunShown(ran: bool, answer: Option<Reply>, outcome: Outcome, out: seq<Out>)
    | MemoryShown(rows: seq<MemRow>)
    | IpShown(shown: Option<i32>)
    | ListShown(numbers: seq<int>)
    | DumpShown(lines: seq<DumpLine>)
    | HelpShown(entries: seq<(string, char)>)
    | QuitAsked(reply: Option<Reply>)
    | NotImplemented
    | WarrantyShown

  /** The line `p` looks up a command whose callback is `cb`. */
  predicate Picks(p: string, cb: Callback) {
    Lookup(p, 0).Some? && Cmds[Lookup(p, 0).value].cb == cb
  }

  /**
   * `runCommand`: find the command the line names and run its callback; an
   * unknown line is reported and status 0 returned.  Each callback's
   * response and effect are its own command's; only `quit` can return QUIT,
   * only `next` and `run` change the machine, and only `run` and `quit` ask.
   */
  method RunCommand(v: VM, p: string, answers: seq<string>, input: seq<Literal>, fuel: nat)
    returns (sts: int, response: Response, answersLeft: seq<string>, rest: seq<Literal>)
    requires Session(v)
    modifies v, v.mem, v.stack
    ensures Session(v) && v.code == old(v.code)
    ensures sts == CONTINUE || sts == QUIT
    ensures sts == QUIT ==> Picks(p, QuitCb)
    ensures Lookup(p, 0).None? ==> response == Undefined(p) && sts == CONTINUE
    ensures !Picks(p, NextCb) && !Picks(p, RunCb)
      ==> unchanged(v) && unchanged(v.mem) && unchanged(v.stack) && rest == input
    ensures !Picks(p, RunCb) && !Picks(p, QuitCb) ==> answersLeft == answers
    ensures Picks(p, NextCb) ==> (response.NextShown?
      && NextDone(v, input, fuel, response.line, response.report, response.outcome, response.out, rest))
    ensures Picks(p, RunCb) ==> (response.RunShown?
      && RunDone(v, answers, input, fuel, response.ran, response.answer, answersLeft, response.outcome, response.out, rest))
    ensures Picks(p, QuitCb) ==> (response.QuitAsked?
      && (!IsSet(v.flags, STEP) ==> response.reply == None && answersLeft == answers)
      && (IsSet(v.flags, STEP) ==> Answered(answers, response.reply, answersLeft))
      && (sts == QUIT <==> !IsSet(v.flags, STEP) || response.reply == Some(Yes)))
    ensures Picks(p, MemCb) ==> response == MemoryShown(Rows(v.mem[..], 0))
    ensures Picks(p, DumpCb) ==> response == DumpShown(DumpFrom(v.code.value, Head))
    ensures Picks(p, IpCb) ==> response == IpShown(if IsSet(v.flags, STEP) then Some(v.lineno) else None)
    ensures Picks(p, ListCb) ==> (response.ListShown?
      && |response.numbers| == (if v.code.value.size > 1 then v.code.value.size - 1 else 0)
      && forall k :: 0 <= k < |response.numbers| ==> response.numbers[k] == k + 1)
    ensures Picks(p, HelpCb) ==> (response.HelpShown? && |response.entries| == |Cmds|
      && forall k :: 0 <= k < |Cmds| ==> response.entries[k] == (Cmds[k].name, Cmds[k].name[0]))
    ensures Picks(p, NotImplCb) ==> response == NotImplemented
    ensures Picks(p, WarrantyCb) ==> response == WarrantyShown
  {
    var found := FindCommand(p);
    sts, answersLeft, rest := CONTINUE, answers, input;
    if found.None? {
      response := Undefined(p);
      return;
    }
    match Cmds[found.value].cb
    case NextCb =>
      var shown, report, o, out;
      shown, report, o, out, rest := NextCmd(v, input, fuel);
      response := NextShown(shown, report, o, out);
    case RunCb =>
      var ran, reply, o, out;
      ran, reply, answersLeft, o, out, rest := RunCmd(v, answers, input, fuel);
      response := RunShown(ran, reply, o, out);
    case MemCb =>
      var rows := MemCmd(v);
      response := MemoryShown(rows);
    case NotImplCb =>
      response := NotImplemented;
    case IpCb =>
      var shown := IpCmd(v);
      response := IpShown(shown);
    case ListCb =>
      var lines := ListCmd(v);
      response := ListShown(lines);
    case QuitCb =>
      var reply;
      sts, reply, answersLeft := QuitCmd(v, answers);
      response := QuitAsked(reply);
    case WarrantyCb =>
      response := WarrantyShown;
    case DumpCb =>
      var lines := DumpCmd(v);
      response := DumpShown(lines);
    case HelpCb =>
      var entries := HelpCmd();
      response := HelpShown(entries);
  }
}
