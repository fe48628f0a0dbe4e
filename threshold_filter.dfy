/** ThresholdFilter: binarisation of the grey image in one of three modes,
    promoted back to three channels. */
module ThresholdFilter {
  import opened Native
  import opened Frames

  datatype ThresholdType = Fixed | Adaptive | Otsu

  datatype ThresholdParams = ThresholdParams(mode: ThresholdType, value: real, blockSize: int32, c: real)

  /** The parameters a default-constructed filter starts with. */
  const Default := ThresholdParams(Fixed, 127.0, 11, 2.0)

  /** The value written to pixels above the cutoff. */
  const MaxValue: int := 255

  function Max3(bs: int32): int {
    if bs < 3 then 3 else bs as int
  }

  /** The block size handed to the adaptive threshold: an even size is bumped
      to the next odd one, then anything below 3 becomes 3. It is the least
      odd value that is at least max(bs, 3). */
  function NormBlock(bs: int32): (r: int32)
    ensures IsOdd(r as int) && r >= 3 && r as int >= bs as int
    ensures forall m :: IsOdd(m) && m >= Max3(bs) ==> r as int <= m
    ensures bs < 3 ==> r == 3
    ensures bs >= 3 && IsOdd(bs as int) ==> r == bs
    ensures bs >= 3 && !IsOdd(bs as int) ==> r as int == bs as int + 1
  {
    CppEvenIsEven(bs as int);
    var b1 := if CppRem2(bs as int) == 0 then bs + 1 else bs;
    if b1 < 3 then 3 else b1
  }

  lemma NormBlockIdempotent(bs: int32)
    ensures NormBlock(NormBlock(bs)) == NormBlock(bs)
  {
  }

  /** The binary image, before promotion to three channels, for mode `p.mode`. */
  function Binarize(p: ThresholdParams, gray: Frame): (r: Frame)
    ensures !r.Source? && r.src == gray && Channels(r) == Channels(gray)
    ensures p.mode == Fixed <==> r.Binary?
    ensures r.Binary? ==> r.cutoff == p.value && r.maxValue == MaxValue
    ensures p.mode == Adaptive <==> r.AdaptiveBinary?
    ensures r.AdaptiveBinary? ==> r.maxValue == MaxValue && r.c == p.c
    ensures r.AdaptiveBinary? ==> r.blockSize == NormBlock(p.blockSize) && IsOdd(r.blockSize as int) && r.blockSize >= 3
    ensures p.mode == Otsu <==> r.OtsuBinary?
    ensures r.OtsuBinary? ==> r.maxValue == MaxValue
  {
    match p.mode
    case Fixed => Binary(gray, p.value, MaxValue)
    case Adaptive => AdaptiveBinary(gray, MaxValue, NormBlock(p.blockSize), p.c)
    case Otsu => OtsuBinary(gray, MaxValue)
  }

  /** What an enabled filter produces from `src` under parameters `p`. */
  function Output(p: ThresholdParams, src: Frame): (dst: Frame)
    ensures Channels(dst) == 3
    ensures dst.Bgr? && Binarize(p, Gray(src)) == dst.src
  {
    Bgr(Binarize(p, Gray(src)))
  }

  /** The enabled branch of ThresholdFilter::apply: grey conversion, the mode
      switch with its step-by-step block-size normalisation, promotion. */
  method Apply(p: ThresholdParams, src: Frame) returns (dst: Frame)
    ensures dst == Output(p, src)
  {
    var gray := Gray(src);
    var thresh: Frame;
    match p.mode {
      case Fixed =>
        thresh := Binary(gray, p.value, MaxValue);
      case Adaptive =>
        var bs := p.blockSize;
        if CppRem2(bs as int) == 0 {
          bs := bs + 1;
        }
        if bs < 3 {
          bs := 3;
        }
        thresh := AdaptiveBinary(gray, MaxValue, bs, p.c);
      case Otsu =>
        thresh := OtsuBinary(gray, MaxValue);
    }
    dst := Bgr(thresh);
  }

  /** Fixed mode thresholds at `value` and ignores the adaptive fields. The
      "only if" direction compares call terms, not pixels. */
  lemma FixedUsesValueOnly(p: ThresholdParams, q: ThresholdParams, src: Frame)
    requires p.mode == Fixed && q.mode == Fixed
    ensures Output(p, src) == Output(q, src) <==> p.value == q.value
  {
  }

  /** Adaptive mode depends on the block size only through its normalised
      value, together with `c`; `value` is ignored. The "only if" direction
      compares call terms, not pixels. */
  lemma AdaptiveUsesBlockAndC(p: ThresholdParams, q: ThresholdParams, src: Frame)
    requires p.mode == Adaptive && q.mode == Adaptive
    ensures Output(p, src) == Output(q, src) <==>
              NormBlock(p.blockSize) == NormBlock(q.blockSize) && p.c == q.c
  {
  }

  /** Otsu mode ignores `value`, `blockSize` and `c`. */
  lemma OtsuIgnoresParams(p: ThresholdParams, q: ThresholdParams, src: Frame)
    requires p.mode == Otsu && q.mode == Otsu
    ensures Output(p, src) == Output(q, src)
  {
  }

  /** The three modes never produce the same call term (a statement about the
      calls made, not about the pixels they compute). */
  lemma ModesDiffer(p: ThresholdParams, q: ThresholdParams, src: Frame)
    requires p.mode != q.mode
    ensures Output(p, src) != Output(q, src)
  {
  }
}
