/** CannyFilter: edges of the grey image, promoted back to three channels. */
module CannyFilter {
  import opened Native
  import opened Frames

  datatype CannyParams = CannyParams(threshold1: real, threshold2: real, apertureSize: int32, l2gradient: bool)

  const Default := CannyParams(50.0, 150.0, 3, false)

  /** What an enabled filter produces from `src` under parameters `p`: the
      supplied thresholds and aperture go to the detector unchanged. */
  function Output(p: CannyParams, src: Frame): (dst: Frame)
    ensures Channels(dst) == 3
    ensures dst.Bgr? && dst.src.Edges? && dst.src.src == Gray(src)
    ensures dst.src.threshold1 == p.threshold1 && dst.src.threshold2 == p.threshold2
    ensures dst.src.aperture == p.apertureSize && dst.src.l2gradient == p.l2gradient
  {
    Bgr(Edges(Gray(src), p.threshold1, p.threshold2, p.apertureSize, p.l2gradient))
  }
}
