/**
 * The C `int` of the interpreter: 32-bit two's complement.
 *
 * Signed overflow is undefined in C; this model fixes one policy and uses it
 * throughout: results are reduced modulo 2^32 into the `int` range.  Division
 * and remainder truncate toward zero, as C's `/` and `%` do.
 */
module Int32 {
  const MIN: int := -0x8000_0000
  const MAX: int := 0x7fff_ffff
  const MODULUS: int := 0x1_0000_0000

  newtype i32 = x: int | -0x8000_0000 <= x < 0x8000_0000

  /** The value a 32-bit register holds after computing `x` exactly. */
  function Wrap(x: int): (r: i32)
    ensures (r as int - x) % MODULUS == 0
    ensures MIN <= x <= MAX ==> r as int == x
  {
    var m := x % MODULUS;
    if m <= MAX then m as i32 else (m - MODULUS) as i32
  }

  function Abs(x: int): nat { if x < 0 then -x else x }

  /** C's `p / q`: the quotient truncated toward zero. */
  function Quot(p: int, q: int): (r: int)
    requires q != 0
    ensures Abs(p - q * r) < Abs(q)
    ensures p - q * r == 0 || ((p - q * r < 0) <==> (p < 0))
  {
    var a := Abs(p) / Abs(q);
    var m := Abs(p) % Abs(q);
    var r: int := if (p < 0) == (q < 0) then a else -(a as int);
    EuclidNat(Abs(p), Abs(q));
    SignCase(p, q, a, r, m);
    r
  }

  /** The arithmetic behind Quot: the sign of `r` makes `p - q * r` the signed remainder. */
  lemma SignCase(p: int, q: int, a: int, r: int, m: int)
    requires q != 0 && a >= 0 && Abs(p) == Abs(q) * a + m
    requires r == if (p < 0) == (q < 0) then a else -a
    ensures p - q * r == (if p < 0 then -m else m)
  {
    var qa := Abs(q) * a;
    if q > 0 {
      assert q * a == qa;
    } else {
      assert q * a == -qa;
    }
    assert q * (-a) == -(q * a);
  }

  lemma EuclidNat(x: nat, y: nat)
    requires y > 0
    ensures x == y * (x / y) + x % y && 0 <= x % y < y && x / y >= 0
  {
  }

  /** C's `p % q`: the remainder that goes with the truncated quotient. */
  function Rem(p: int, q: int): (r: int)
    requires q != 0
    ensures p == q * Quot(p, q) + r
    ensures Abs(r) < Abs(q)
    ensures r == 0 || ((r < 0) <==> (p < 0))
  {
    p - q * Quot(p, q)
  }
}
