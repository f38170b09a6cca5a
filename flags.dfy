/**
 * The VM flags word and the bit macros of src/sem.h.
 *
 * The C field is an `int` used only through `|`, `&` and `~`; it is
 * modelled as a 32-bit vector.
 */
module Flags {
  type Flags = bv32

  /** Evaluate step by step (the debugger's single-step mode). */
  const STEP: Flags := 1 << 0
  /** Dump opcode execution (declared, never set by the core). */
  const TRACE: Flags := 1 << 1
  /** The program reached HALT while in step mode. */
  const HALTED: Flags := 1 << 2

  /** `IS_SET(var, flag)`: some bit of `flag` is on in `var`. */
  predicate IsSet(v: Flags, flag: Flags) {
    v & flag != 0
  }

  /** `SET(var, flag)`: turns the bits of `flag` on and keeps every bit already on. */
  function SetFlag(v: Flags, flag: Flags): (r: Flags)
    ensures r & v == v
    ensures r & flag == flag
  {
    v | flag
  }

  /** SET makes IS_SET true for the flag it names. */
  lemma SetFlagIsSet(v: Flags, flag: Flags)
    requires flag != 0
    ensures IsSet(SetFlag(v, flag), flag)
  {
  }

  /** SET changes no bit outside the flag it names. */
  lemma SetFlagKeepsOthers(v: Flags, flag: Flags)
    ensures SetFlag(v, flag) & !flag == v & !flag
  {
  }

  /**
   * `UNSET(var, flag)` as written: `(var) |= ~(flag)`.  It turns on every bit
   * OUTSIDE `flag` and leaves the bits of `flag` as they were, so it never
   * clears the flag it names.
   */
  function UnsetAsWritten(v: Flags, flag: Flags): (r: Flags)
    ensures r & flag == v & flag
  {
    v | !flag
  }

  /** IS_SET of the named flag is the same before and after UNSET as written. */
  lemma UnsetAsWrittenNeverClears(v: Flags, flag: Flags)
    ensures IsSet(UnsetAsWritten(v, flag), flag) == IsSet(v, flag)
  {
  }

  /** What `UNSET` is evidently meant to do: clear the bits of `flag`, keep the rest. */
  function Unset(v: Flags, flag: Flags): (r: Flags)
    ensures r & flag == 0
    ensures r & !flag == v & !flag
  {
    v & !flag
  }

  /** The UNSET macro as written leaves a set STEP flag set. */
  lemma UnsetAsWrittenKeepsStep()
    ensures IsSet(UnsetAsWritten(STEP, STEP), STEP)
    ensures !IsSet(Unset(STEP, STEP), STEP)
  {
  }

  /** STEP, TRACE and HALTED are three distinct single bits. */
  lemma FlagBitsDisjoint()
    ensures STEP == 1 && TRACE == 2 && HALTED == 4
    ensures STEP & TRACE == 0 && STEP & HALTED == 0 && TRACE & HALTED == 0
  {
  }

  /** Setting one flag does not disturb whether another, disjoint one is set. */
  lemma SetFlagOthers(v: Flags, flag: Flags, other: Flags)
    requires flag & other == 0
    ensures IsSet(SetFlag(v, flag), other) == IsSet(v, other)
  {
  }
}
