/** GrayscaleFilter: luma conversion promoted back to three channels. */
module GrayscaleFilter {
  import opened Frames

  /** What an enabled filter produces from `src`. */
  function Output(src: Frame): (dst: Frame)
    ensures Channels(dst) == 3 && dst.Bgr? && dst.src == Gray(src)
  {
    Bgr(Gray(src))
  }
}
