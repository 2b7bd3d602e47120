/** C# `int` arithmetic where it differs from Dafny's unbounded integers. */
module Int32 {

  const Modulus: int := 0x1_0000_0000
  const MinValue: int := -0x8000_0000
  const MaxValue: int := 0x7FFF_FFFF

  predicate InRange(x: int) {
    MinValue <= x <= MaxValue
  }

  /** The unchecked 32-bit two's-complement result of an integer operation. */
  function Wrap(x: int): (r: int)
    ensures InRange(r)
    ensures (r - x) % Modulus == 0
    ensures InRange(x) ==> r == x
  {
    var m := (x - MinValue) % Modulus;
    m + MinValue
  }

  /**
   * The unchecked conversion of a whole-valued `double` to `int`. Outside the
   * range C# leaves the result unspecified; the model takes `int.MinValue`,
   * the value the x86 and x64 conversion instruction produces.
   */
  function CastToInt(x: int): (r: int)
    ensures InRange(r)
    ensures InRange(x) ==> r == x
    ensures !InRange(x) ==> r == MinValue
  {
    if InRange(x) then x else MinValue
  }

  /** C#'s `/` on integers, which truncates toward zero: the quotient of the magnitudes, signed. */
  function TruncDiv(a: int, b: int): (q: int)
    requires b != 0
    ensures Abs(q) == Abs(a) / Abs(b)
    ensures (a >= 0) == (b > 0) ==> q >= 0
    ensures (a >= 0) != (b > 0) ==> q <= 0
  {
    var m: int := Quotient(Abs(a), Abs(b));
    if (a >= 0) == (b > 0) then m else -m
  }

  function Quotient(n: nat, d: nat): (m: nat)
    requires d > 0
    ensures m == n / d
  {
    n / d
  }

  function Abs(x: int): (r: nat)
    ensures r == x || r == -x
  {
    if x < 0 then -x else x
  }

  /** Negating the dividend negates the quotient, which Euclidean division does not do. */
  lemma TruncDivOdd(a: int, b: int)
    requires b != 0
    ensures TruncDiv(-a, b) == -TruncDiv(a, b)
  {
    assert Abs(-a) == Abs(a);
    if a == 0 {
      assert Abs(a) / Abs(b) == 0;
    }
  }

  /** `-7 / 2` is `-3` in C#, where Dafny's Euclidean division gives `-4`. */
  lemma TruncDivDiffersFromEuclidean()
    ensures TruncDiv(-7, 2) == -3 && -7 / 2 == -4
  {
  }
}
