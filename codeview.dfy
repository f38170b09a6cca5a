/**
 * The debugger's `dump` command (`dumpCmd`, src/debug.c): one line per
 * instruction of the list, from the head to HALT, with the `opstr` name and
 * the operand.  The integer operand is shown unless it is -1, the value the
 * compiler leaves in an unused field; otherwise a string operand is shown
 * through `repr`, cut to 50 characters.
 */
module CodeView {
  import opened Int32
  import opened Wrappers
  import opened Bytecode
  import opened CString
  import opened Display

  datatype Operand = IntOperand(n: i32) | StrOperand(text: string) | NoOperand

  datatype DumpLine = DumpLine(name: string, operand: Operand)

  /** `%.50s`. */
  const Width: nat := 50

  function Clip(s: string, n: nat): (r: string)
    ensures |r| <= n && r <= s
    ensures |s| <= n ==> r == s
  {
    if |s| <= n then s else s[..n]
  }

  function ShowOperand(ins: Instr): (r: Operand)
    ensures r.IntOperand? ==> r.n == ins.intv
    ensures r.NoOperand? ==> ins.intv == -1 && ins.strv.None?
  {
    if ins.intv != -1 then IntOperand(ins.intv)
    else if ins.strv.Some? then StrOperand(Clip(Quoted(Content(ins.strv.value)), Width))
    else NoOperand
  }

  function ShowInstr(ins: Instr): DumpLine {
    DumpLine(OpStr[Number(ins.opcode)], ShowOperand(ins))
  }

  /** The lines printed from instruction `i` on, following the links. */
  function DumpFrom(c: Program, i: nat): (r: seq<DumpLine>)
    requires WellFormed(c) && i < |c.instrs|
    ensures |r| >= 1 && r[0] == ShowInstr(c.instrs[i])
    decreases |c.instrs| - i
  {
    assert InstrOk(c, i);
    [ShowInstr(c.instrs[i])] + (if c.instrs[i].next.Some? then DumpFrom(c, c.instrs[i].next.value) else [])
  }

  /** One step of the walk: the line of `i`, then the lines from its successor. */
  lemma DumpStep(c: Program, i: nat)
    requires WellFormed(c) && i < |c.instrs|
    ensures c.instrs[i].next.Some? ==> i < c.instrs[i].next.value < |c.instrs|
    ensures c.instrs[i].next.Some? ==>
      DumpFrom(c, i) == [ShowInstr(c.instrs[i])] + DumpFrom(c, c.instrs[i].next.value)
    ensures c.instrs[i].next.None? ==> DumpFrom(c, i) == [ShowInstr(c.instrs[i])]
  {
    assert InstrOk(c, i);
  }

  /** The dump has one line per instruction of the list the engine walks, in the same order. */
  lemma {:induction false} DumpFollowsList(c: Program, i: nat)
    requires WellFormed(c) && i < |c.instrs|
    ensures |DumpFrom(c, i)| == |ListFrom(c, i)|
    ensures forall k :: 0 <= k < |DumpFrom(c, i)| ==> DumpFrom(c, i)[k] == ShowInstr(c.instrs[ListFrom(c, i)[k]])
    decreases |c.instrs| - i
  {
    DumpStep(c, i);
    assert InstrOk(c, i);
    var l := ListFrom(c, i);
    var d := DumpFrom(c, i);
    if c.instrs[i].next.Some? {
      var j := c.instrs[i].next.value;
      DumpFollowsList(c, j);
      assert l == [i] + ListFrom(c, j);
      forall k | 1 <= k < |d|
        ensures d[k] == ShowInstr(c.instrs[l[k]])
      {
        assert d[k] == DumpFrom(c, j)[k - 1];
        assert l[k] == ListFrom(c, j)[k - 1];
      }
    } else {
      assert l == [i];
    }
  }

  /** The walk from any instruction ends with the HALT line. */
  lemma {:induction false} DumpEndsWithHalt(c: Program, i: nat)
    requires WellFormed(c) && i < |c.instrs|
    ensures DumpFrom(c, i)[|DumpFrom(c, i)| - 1].name == "HALT"
    decreases |c.instrs| - i
  {
    assert InstrOk(c, i);
    var d := DumpFrom(c, i);
    if c.instrs[i].next.Some? {
      var j := c.instrs[i].next.value;
      DumpEndsWithHalt(c, j);
      assert d == [ShowInstr(c.instrs[i])] + DumpFrom(c, j);
      assert d[|d| - 1] == DumpFrom(c, j)[|DumpFrom(c, j)| - 1];
    } else {
      assert c.instrs[i].opcode == Halt;
      assert OpStr[Number(Halt)] == "HALT";
      assert d == [ShowInstr(c.instrs[i])];
    }
  }

  /** A whole dump opens with the START sentinel and closes with HALT. */
  lemma DumpStartsAndEnds(c: Program)
    requires WellFormed(c)
    ensures |DumpFrom(c, Head)| >= 1
    ensures DumpFrom(c, Head)[0].name == "START"
    ensures DumpFrom(c, Head)[|DumpFrom(c, Head)| - 1].name == "HALT"
  {
    DumpEndsWithHalt(c, Head);
    assert OpStr[Number(Start)] == "START";
  }

  /**
   * What the operand column shows: the integer unless it is -1, else the
   * quoted string cut to 50 characters, else nothing.  INT -1 is therefore
   * shown exactly like an instruction without operand.
   */
  lemma OperandShown(ins: Instr, next: Option<nat>)
    ensures ShowOperand(ins).IntOperand? <==> ins.intv != -1
    ensures ShowOperand(ins).StrOperand? <==> ins.intv == -1 && ins.strv.Some?
    ensures ShowOperand(ins).StrOperand? ==> |ShowOperand(ins).text| <= Width && ShowOperand(ins).text[0] == '"'
    ensures ShowInstr(Instr(Int, -1, None, next)) == DumpLine("INT", NoOperand)
  {
    OpStrFollowsEnum(Int);
  }
}
