/** GaussianFilter: a blur whose kernel size is forced odd and positive. */
module GaussianFilter {
  import opened Native
  import opened Frames

  datatype GaussianParams = GaussianParams(kernelSize: int32, sigmaX: real, sigmaY: real)

  /** The parameters a default-constructed filter starts with. */
  const Default := GaussianParams(5, 1.0, 0.0)

  function Max1(k: int32): int {
    if k < 1 then 1 else k as int
  }

  /** The kernel size actually passed to the blur: an even size is bumped to
      the next odd one, then anything below 1 becomes 1. It is the least odd
      value that is at least max(k, 1). */
  function NormKernel(k: int32): (r: int32)
    ensures IsOdd(r as int) && r >= 1 && r as int >= k as int
    ensures forall m :: IsOdd(m) && m >= Max1(k) ==> r as int <= m
    ensures k < 1 ==> r == 1
    ensures k >= 1 && IsOdd(k as int) ==> r == k
    ensures k >= 1 && !IsOdd(k as int) ==> r as int == k as int + 1
  {
    CppEvenIsEven(k as int);
    var k1 := if CppRem2(k as int) == 0 then k + 1 else k;
    if k1 < 1 then 1 else k1
  }

  lemma NormKernelIdempotent(k: int32)
    ensures NormKernel(NormKernel(k)) == NormKernel(k)
  {
  }

  /** What an enabled filter produces from `src` under parameters `p`. */
  function Output(p: GaussianParams, src: Frame): (dst: Frame)
    ensures dst.Blur? && dst.src == src
    ensures dst.ksize == NormKernel(p.kernelSize)
    ensures IsOdd(dst.ksize as int) && dst.ksize >= 1
    ensures dst.sigmaX == p.sigmaX && dst.sigmaY == p.sigmaY
    ensures Channels(dst) == Channels(src)
  {
    Blur(src, NormKernel(p.kernelSize), p.sigmaX, p.sigmaY)
  }

  /** The enabled branch of GaussianFilter::apply, with its step-by-step
      normalisation of the local kernel size. */
  method Apply(p: GaussianParams, src: Frame) returns (dst: Frame)
    ensures dst == Output(p, src)
  {
    var k := p.kernelSize;
    if CppRem2(k as int) == 0 {
      k := k + 1;
    }
    if k < 1 {
      k := 1;
    }
    dst := Blur(src, k, p.sigmaX, p.sigmaY);
  }
}
