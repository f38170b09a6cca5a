/**
 * The debugger's command table and `runCommand`'s lookup (src/debug.c): a
 * line longer than one character must be a whole command name, a single
 * character is taken as the first letter of one.
 */
module CommandTable {
  import opened Wrappers
  import opened CString

  datatype Callback = NextCb | RunCb | MemCb | NotImplCb | IpCb | ListCb | QuitCb | WarrantyCb | DumpCb | HelpCb

  datatype Cmd = Cmd(name: string, cb: Callback)

  /** The `cmds` table in its order; `break` and `trace` share the not-implemented callback. */
  const Cmds: seq<Cmd> := [
    Cmd("next", NextCb), Cmd("run", RunCb), Cmd("memory", MemCb), Cmd("break", NotImplCb),
    Cmd("ip", IpCb), Cmd("list", ListCb), Cmd("quit", QuitCb), Cmd("warranty", WarrantyCb),
    Cmd("dump", DumpCb), Cmd("trace", NotImplCb), Cmd("help", HelpCb)
  ]

  /** `*p`: the first character of a C string, NUL for the empty one. */
  function First(p: string): char {
    if |p| == 0 then NUL else p[0]
  }

  /** `nameCmp`: the first characters agree and `strcmp` finds the strings equal. */
  predicate NameCmp(p: string, q: string) {
    First(p) == First(q) && p == q
  }

  /** `aliasCmp`: only the first characters are compared. */
  predicate AliasCmp(p: string, q: string) {
    First(p) == First(q)
  }

  /** The comparison `runCommand` picks by the length of the line. */
  predicate Matches(p: string, q: string) {
    if |p| > 1 then NameCmp(p, q) else AliasCmp(p, q)
  }

  /** No two commands share a first letter, and every name is at least two characters long. */
  lemma InitialsDistinct()
    ensures forall k :: 0 <= k < |Cmds| ==> |Cmds[k].name| >= 2
    ensures forall j, k :: 0 <= j < k < |Cmds| ==> Cmds[j].name[0] != Cmds[k].name[0]
  {
  }

  /**
   * A line names at most one command: either it is that command's whole
   * name, or it is one character and that command's first letter.
   */
  lemma MatchIff(p: string, k: int)
    requires 0 <= k < |Cmds|
    ensures Matches(p, Cmds[k].name) <==>
      (|p| > 1 && p == Cmds[k].name) || (|p| == 1 && p[0] == Cmds[k].name[0])
    ensures Matches(p, Cmds[k].name) ==> forall j :: 0 <= j < |Cmds| && j != k ==> !Matches(p, Cmds[j].name)
  {
    InitialsDistinct();
    if Matches(p, Cmds[k].name) {
      forall j | 0 <= j < |Cmds| && j != k
        ensures !Matches(p, Cmds[j].name)
      {
        if |p| > 1 {
          assert p[0] == Cmds[k].name[0];
        }
      }
    }
  }

  /** The lookup as it ends: the first matching entry, or none. */
  function Lookup(p: string, from: nat): (r: Option<nat>)
    requires from <= |Cmds|
    ensures r.Some? ==> from <= r.value < |Cmds| && Matches(p, Cmds[r.value].name)
    ensures r.Some? ==> forall j :: from <= j < r.value ==> !Matches(p, Cmds[j].name)
    ensures r.None? ==> forall j :: from <= j < |Cmds| ==> !Matches(p, Cmds[j].name)
    decreases |Cmds| - from
  {
    if from == |Cmds| then None
    else if Matches(p, Cmds[from].name) then Some(from)
    else Lookup(p, from + 1)
  }

  /** `runCommand`'s search loop over the table. */
  method FindCommand(p: string) returns (found: Option<nat>)
    ensures found == Lookup(p, 0)
  {
    var k := 0;
    while k < |Cmds|
      invariant 0 <= k <= |Cmds|
      invariant Lookup(p, k) == Lookup(p, 0)
    {
      if Matches(p, Cmds[k].name) {
        return Some(k);
      }
      k := k + 1;
    }
    return None;
  }

  /** Every command is found by its whole name and by its first letter. */
  lemma LookupFinds(k: int)
    requires 0 <= k < |Cmds|
    ensures Lookup(Cmds[k].name, 0) == Some(k)
    ensures Lookup([Cmds[k].name[0]], 0) == Some(k)
  {
    MatchIff(Cmds[k].name, k);
    MatchIff([Cmds[k].name[0]], k);
  }

  /** A longer abbreviation such as "ne" is not a command, and neither is the empty line. */
  lemma LookupRejects()
    ensures Lookup("ne", 0) == None
    ensures Lookup("", 0) == None
  {
  }
}
