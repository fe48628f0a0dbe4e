/** FilterBase: the common part of every filter (identifier, enable flag,
    apply) and the dispatch to the five concrete filters, which C++ does by
    virtual call and this model does on a tagged union of parameter structs. */
module FilterBase {
  import opened Frames
  import GaussianFilter
  import ThresholdFilter
  import CannyFilter
  import HistEqFilter
  import GrayscaleFilter

  /** The concrete filter classes. */
  datatype FilterKind = GaussianKind | CannyKind | ThresholdKind | HistEqKind | GrayscaleKind

  /** The parameter struct each concrete class owns (Grayscale has none). */
  datatype Params =
    | GaussianP(gaussian: GaussianFilter.GaussianParams)
    | CannyP(canny: CannyFilter.CannyParams)
    | ThresholdP(threshold: ThresholdFilter.ThresholdParams)
    | HistEqP(histEq: HistEqFilter.HistEqParams)
    | NoParams

  /** The identifier each concrete class returns from id(). */
  function KindId(k: FilterKind): (r: string)
    ensures r == "gaussian" <==> k == GaussianKind
    ensures r == "canny" <==> k == CannyKind
    ensures r == "threshold" <==> k == ThresholdKind
    ensures r == "histeq" <==> k == HistEqKind
    ensures r == "grayscale" <==> k == GrayscaleKind
  {
    match k
    case GaussianKind => "gaussian"
    case CannyKind => "canny"
    case ThresholdKind => "threshold"
    case HistEqKind => "histeq"
    case GrayscaleKind => "grayscale"
  }

  /** Distinct classes have distinct identifiers, so id() names the class. */
  lemma KindIdInjective(a: FilterKind, b: FilterKind)
    ensures KindId(a) == KindId(b) <==> a == b
  {
  }

  predicate Fits(k: FilterKind, p: Params) {
    match k
    case GaussianKind => p.GaussianP?
    case CannyKind => p.CannyP?
    case ThresholdKind => p.ThresholdP?
    case HistEqKind => p.HistEqP?
    case GrayscaleKind => p.NoParams?
  }

  /** What an enabled filter with parameters `p` makes of `src`: the blur
      keeps the channel count, every other filter returns three channels. */
  function Effect(p: Params, src: Frame): (r: Frame)
    ensures p.GaussianP? ==> Channels(r) == Channels(src)
    ensures !p.GaussianP? ==> Channels(r) == 3
  {
    match p
    case GaussianP(g) => GaussianFilter.Output(g, src)
    case CannyP(c) => CannyFilter.Output(c, src)
    case ThresholdP(t) => ThresholdFilter.Output(t, src)
    case HistEqP(h) => HistEqFilter.Output(h, src)
    case NoParams => GrayscaleFilter.Output(src)
  }

  /** Every filter keeps the pipeline's three-channel format. */
  lemma EffectKeepsThreeChannels(p: Params, src: Frame)
    requires Channels(src) == 3
    ensures Channels(Effect(p, src)) == 3
  {
  }

  class Filter {
    /** The concrete class, which fixes id(). */
    const kind: FilterKind
    /** FilterBase::m_enabled. */
    var enabled: bool
    /** The concrete class's m_params. */
    var params: Params

    ghost predicate Valid()
      reads this
    {
      Fits(kind, params)
    }

    /** FilterBase::id(): fixed by the class alone, so neither the enable flag
        nor the parameters can change it. */
    function Id(): (r: string)
      ensures r == KindId(kind)
    {
      KindId(kind)
    }

    constructor Gaussian(p: GaussianFilter.GaussianParams := GaussianFilter.Default)
      ensures Valid() && kind == GaussianKind && enabled && params == GaussianP(p)
    {
      kind := GaussianKind;
      enabled := true;
      params := GaussianP(p);
    }

    constructor Canny(p: CannyFilter.CannyParams := CannyFilter.Default)
      ensures Valid() && kind == CannyKind && enabled && params == CannyP(p)
    {
      kind := CannyKind;
      enabled := true;
      params := CannyP(p);
    }

    constructor Threshold(p: ThresholdFilter.ThresholdParams := ThresholdFilter.Default)
      ensures Valid() && kind == ThresholdKind && enabled && params == ThresholdP(p)
    {
      kind := ThresholdKind;
      enabled := true;
      params := ThresholdP(p);
    }

    constructor HistEq(p: HistEqFilter.HistEqParams := HistEqFilter.Default)
      ensures Valid() && kind == HistEqKind && enabled && params == HistEqP(p)
    {
      kind := HistEqKind;
      enabled := true;
      params := HistEqP(p);
    }

    constructor Grayscale()
      ensures Valid() && kind == GrayscaleKind && enabled && params == NoParams
    {
      kind := GrayscaleKind;
      enabled := true;
      params := NoParams;
    }

    /** FilterBase::setEnabled: only the flag changes. */
    method SetEnabled(e: bool)
      modifies this
      ensures enabled == e && params == old(params)
    {
      enabled := e;
    }

    /** GaussianFilter::setParams: the whole struct is replaced. */
    method SetGaussianParams(p: GaussianFilter.GaussianParams)
      requires Valid() && kind == GaussianKind
      modifies this
      ensures Valid() && params == GaussianP(p) && enabled == old(enabled)
    {
      params := GaussianP(p);
    }

    /** GaussianFilter::params. */
    method GaussianParamsOf() returns (p: GaussianFilter.GaussianParams)
      requires Valid() && kind == GaussianKind
      ensures params == GaussianP(p)
    {
      p := params.gaussian;
    }

    /** CannyFilter::setParams. */
    method SetCannyParams(p: CannyFilter.CannyParams)
      requires Valid() && kind == CannyKind
      modifies this
      ensures Valid() && params == CannyP(p) && enabled == old(enabled)
    {
      params := CannyP(p);
    }

    /** ThresholdFilter::setParams. */
    method SetThresholdParams(p: ThresholdFilter.ThresholdParams)
      requires Valid() && kind == ThresholdKind
      modifies this
      ensures Valid() && params == ThresholdP(p) && enabled == old(enabled)
    {
      params := ThresholdP(p);
    }

    /** HistEqFilter::setParams. */
    method SetHistEqParams(p: HistEqFilter.HistEqParams)
      requires Valid() && kind == HistEqKind
      modifies this
      ensures Valid() && params == HistEqP(p) && enabled == old(enabled)
    {
      params := HistEqP(p);
    }

    /** What apply() returns: the input itself (as a value) when disabled. */
    function Output(src: Frame): (r: Frame)
      reads this
      ensures !enabled ==> r == src
      ensures enabled ==> r == Effect(params, src)
      ensures Channels(src) == 3 ==> Channels(r) == 3
    {
      if enabled then Effect(params, src) else src
    }

    /** apply(): a disabled filter hands back (a clone of) its input and
        invokes no library call; an enabled one runs the filter of its class
        (virtual dispatch on `kind`). */
    method Apply(src: Frame) returns (dst: Frame)
      requires Valid()
      ensures dst == Output(src)
      ensures !enabled ==> dst == src
      ensures enabled ==> dst == Effect(params, src)
    {
      if !enabled {
        return src;
      }
      match kind {
        case GaussianKind => dst := GaussianFilter.Apply(params.gaussian, src);
        case CannyKind => dst := CannyFilter.Output(params.canny, src);
        case ThresholdKind => dst := ThresholdFilter.Apply(params.threshold, src);
        case HistEqKind => dst := HistEqFilter.Output(params.histEq, src);
        case GrayscaleKind => dst := GrayscaleFilter.Output(src);
      }
    }
  }
}
