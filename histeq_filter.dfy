/** HistEqFilter: equalisation of the luma channel only. */
module HistEqFilter {
  import opened Native
  import opened Frames

  datatype HistEqParams = HistEqParams(useClahe: bool, clipLimit: real, tileGridW: int32, tileGridH: int32)

  const Default := HistEqParams(true, 2.0, 8, 8)

  /** The equaliser selected by `useClahe`. */
  function EqualizerOf(p: HistEqParams): (r: Equalizer)
    ensures r.Clahe? <==> p.useClahe
    ensures r.Clahe? ==> r.clipLimit == p.clipLimit && r.tileGridW == p.tileGridW && r.tileGridH == p.tileGridH
  {
    if p.useClahe then Clahe(p.clipLimit, p.tileGridW, p.tileGridH) else GlobalHist
  }

  /** What an enabled filter produces from `src` under parameters `p`. */
  function Output(p: HistEqParams, src: Frame): (dst: Frame)
    ensures Channels(dst) == 3
    ensures dst.FromYCrCb? && dst.src.EqualizeLuma? && dst.src.src == ToYCrCb(src)
    ensures dst.src.how.Clahe? <==> p.useClahe
  {
    FromYCrCb(EqualizeLuma(ToYCrCb(src), EqualizerOf(p)))
  }

  /** Without CLAHE the clip limit and tile grid play no part. */
  lemma GlobalIgnoresClaheFields(p: HistEqParams, q: HistEqParams, src: Frame)
    requires !p.useClahe && !q.useClahe
    ensures Output(p, src) == Output(q, src)
  {
  }
}
