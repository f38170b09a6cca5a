/**
 * The instruction stream of src/sem.h: the opcode enumeration, one
 * instruction (`struct Op`) and the compiled program (`struct Code`).
 *
 * The linked list of instructions is an arena: instruction `i` is
 * `instrs[i]`, its `next` link is an index, and the head (the START sentinel)
 * is index 0.  The jump table maps line `q` to `jumps[q - 1]`.
 */
module Bytecode {
  import opened Int32
  import opened Wrappers

  /** The opcodes, in the order of the C enumeration (START = 0 … HALT = 24). */
  datatype Opcode =
    | Start | Set | Jump | JumpT | SetLineNo | Int | Read | WriteInt | WriteStr
    | WritelnInt | WritelnStr | Mem | Add | Sub | Mul | Div | Mod
    | Eq | Ne | Gt | Lt | Ge | Le | Ip | Halt

  /** The numeric value C gives each enumerator. */
  function Number(op: Opcode): (n: nat)
    ensures n < 25
  {
    match op
    case Start => 0       case Set => 1         case Jump => 2      case JumpT => 3
    case SetLineNo => 4   case Int => 5         case Read => 6      case WriteInt => 7
    case WriteStr => 8    case WritelnInt => 9  case WritelnStr => 10
    case Mem => 11        case Add => 12        case Sub => 13      case Mul => 14
    case Div => 15        case Mod => 16        case Eq => 17       case Ne => 18
    case Gt => 19         case Lt => 20         case Ge => 21       case Le => 22
    case Ip => 23         case Halt => 24
  }

  /** The enumerator with a given value, if there is one. */
  function FromNumber(n: int): Option<Opcode> {
    if n == 0 then Some(Start) else if n == 1 then Some(Set)
    else if n == 2 then Some(Jump) else if n == 3 then Some(JumpT)
    else if n == 4 then Some(SetLineNo) else if n == 5 then Some(Int)
    else if n == 6 then Some(Read) else if n == 7 then Some(WriteInt)
    else if n == 8 then Some(WriteStr) else if n == 9 then Some(WritelnInt)
    else if n == 10 then Some(WritelnStr) else if n == 11 then Some(Mem)
    else if n == 12 then Some(Add) else if n == 13 then Some(Sub)
    else if n == 14 then Some(Mul) else if n == 15 then Some(Div)
    else if n == 16 then Some(Mod) else if n == 17 then Some(Eq)
    else if n == 18 then Some(Ne) else if n == 19 then Some(Gt)
    else if n == 20 then Some(Lt) else if n == 21 then Some(Ge)
    else if n == 22 then Some(Le) else if n == 23 then Some(Ip)
    else if n == 24 then Some(Halt) else None
  }

  /** The numbering is a bijection between the opcodes and 0..24. */
  lemma NumberingRoundTrip(op: Opcode, n: int)
    ensures FromNumber(Number(op)) == Some(op)
    ensures FromNumber(n).Some? <==> 0 <= n < 25
    ensures FromNumber(n).Some? ==> Number(FromNumber(n).value) == n
  {
  }

  /** The enumerator's identifier as it is spelled in the C enumeration. */
  function EnumName(op: Opcode): string {
    match op
    case Start => "START"           case Set => "SET"
    case Jump => "JUMP"             case JumpT => "JUMPT"
    case SetLineNo => "SETLINENO"   case Int => "INT"
    case Read => "READ"             case WriteInt => "WRITE_INT"
    case WriteStr => "WRITE_STR"    case WritelnInt => "WRITELN_INT"
    case WritelnStr => "WRITELN_STR" case Mem => "MEM"
    case Add => "ADD"   case Sub => "SUB"   case Mul => "MUL"
    case Div => "DIV"   case Mod => "MOD"   case Eq => "EQ"
    case Ne => "NE"     case Gt => "GT"     case Lt => "LT"
    case Ge => "GE"     case Le => "LE"     case Ip => "IP"
    case Halt => "HALT"
  }

  /** The debugger's `opstr` table: display names indexed by opcode value. */
  const OpStr: seq<string> := [
    "START",     "SET",         "JUMP",        "JUMPT",
    "SETLINENO", "INT",         "READ",        "WRITE_INT",
    "WRITE_STR", "WRITELN_INT", "WRITELN_STR", "MEM",
    "ADD",       "SUB",         "MUL",         "DIV",
    "MOD",       "EQ",          "NE",          "GT",
    "LT",        "GE",          "LE",          "IP",
    "HALT"
  ]

  /** `opstr[k]` names the opcode whose value is k: the table follows the enumeration order. */
  lemma OpStrFollowsEnum(op: Opcode)
    ensures |OpStr| == 25
    ensures OpStr[Number(op)] == EnumName(op)
  {
    match op
    case Start =>       case Set =>         case Jump =>        case JumpT =>
    case SetLineNo =>   case Int =>         case Read =>        case WriteInt =>
    case WriteStr =>    case WritelnInt =>  case WritelnStr =>  case Mem =>
    case Add =>         case Sub =>         case Mul =>         case Div =>
    case Mod =>         case Eq =>          case Ne =>          case Gt =>
    case Lt =>          case Ge =>          case Le =>          case Ip =>
    case Halt =>
  }

  /** One instruction.  `intv` is -1 and `strv` is None when unused. */
  datatype Instr = Instr(opcode: Opcode, intv: i32, strv: Option<string>, next: Option<nat>)

  /** A compiled program: the instruction arena (head at 0), its line count and jump table. */
  datatype Program = Program(instrs: seq<Instr>, size: int, jumps: seq<nat>)

  /** The head instruction, the START sentinel every run begins from. */
  const Head: nat := 0

  predicate WritesString(op: Opcode) {
    op == WriteStr || op == WritelnStr
  }

  /** What the compiler guarantees of instruction `i`. */
  predicate InstrOk(c: Program, i: nat)
    requires i < |c.instrs|
  {
    var ins := c.instrs[i];
    // links go forward, so the list is acyclic and laid out in program order
    (ins.next.Some? ==> i < ins.next.value < |c.instrs|)
    // only HALT may end the list: the engine never follows a missing link
    && (ins.opcode != Halt ==> ins.next.Some?)
    && (WritesString(ins.opcode) ==> ins.strv.Some?)
  }

  /** The engine can fetch the instruction after `i`. */
  predicate Resumable(c: Program, i: nat) {
    i < |c.instrs| && c.instrs[i].next.Some?
  }

  /**
   * The compiler's side of the contract: a START head, forward links ending
   * in HALT, a jump-table entry for every line the engine accepts as a target
   * (1 .. size - 1), and every entry pointing at an instruction with a successor.
   */
  predicate WellFormed(c: Program) {
    |c.instrs| > 0 && c.instrs[Head].opcode == Start
    && (forall i: nat :: i < |c.instrs| ==> InstrOk(c, i))
    && JumpsOk(c)
  }

  /** Every line the engine accepts as a jump target has a table entry, and every entry can be resumed from. */
  predicate JumpsOk(c: Program) {
    |c.jumps| >= c.size - 1
    && (forall k :: 0 <= k < |c.jumps| ==> Resumable(c, c.jumps[k]))
  }

  /** The head can always be resumed from: START is never the last instruction. */
  lemma HeadResumable(c: Program)
    requires WellFormed(c)
    ensures Resumable(c, Head)
  {
    assert InstrOk(c, Head);
  }

  /**
   * The instructions reached from `i` by following the links, in order:
   * the list the debugger's `dump` walks.
   */
  function ListFrom(c: Program, i: nat): (r: seq<nat>)
    requires WellFormed(c) && i < |c.instrs|
    ensures |r| >= 1 && r[0] == i
    ensures forall k :: 0 <= k < |r| ==> r[k] < |c.instrs|
    ensures forall k :: 0 <= k < |r| - 1 ==> c.instrs[r[k]].next == Some(r[k + 1])
    ensures c.instrs[r[|r| - 1]].next.None? && c.instrs[r[|r| - 1]].opcode == Halt
    decreases |c.instrs| - i
  {
    assert InstrOk(c, i);
    match c.instrs[i].next
    case None => [i]
    case Some(j) => [i] + ListFrom(c, j)
  }

  /** Every well-formed list ends in HALT, reached from the head with strictly growing indices. */
  lemma {:induction false} ListFromIncreasing(c: Program, i: nat, k: nat, m: nat)
    requires WellFormed(c) && i < |c.instrs|
    requires k < m < |ListFrom(c, i)|
    ensures ListFrom(c, i)[k] < ListFrom(c, i)[m]
    decreases m - k
  {
    var r := ListFrom(c, i);
    assert InstrOk(c, r[k]);
    if m > k + 1 {
      ListFromIncreasing(c, i, k + 1, m);
    }
  }
}
