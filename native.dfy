/** C++ integer semantics that the filter parameters depend on. */
module Native {

  /** The C++ `int` of the parameter structs: 32-bit two's complement. */
  newtype int32 = x: int | -0x8000_0000 <= x < 0x8000_0000

  /** C++ `a % 2`: the remainder truncates toward zero, so it takes the sign
      of `a` (Dafny's own `%` is Euclidean and never negative). */
  function CppRem2(a: int): (r: int)
    ensures -2 < r < 2 && (a - r) % 2 == 0
    ensures a >= 0 ==> r >= 0
    ensures a < 0 ==> r <= 0
  {
    if a >= 0 then a % 2 else -((-a) % 2)
  }

  /** Odd in the mathematical sense: -3 is odd, 0 is not. */
  predicate IsOdd(n: int) {
    n % 2 == 1
  }

  /** The evenness test `k % 2 == 0` in GaussianFilter::apply and
      ThresholdFilter::apply agrees with mathematical evenness, negative
      values included. */
  lemma CppEvenIsEven(k: int)
    ensures CppRem2(k) == 0 <==> !IsOdd(k)
  {
    if k < 0 {
      assert (-k) % 2 == 0 <==> k % 2 == 0;
    }
  }
}
