# Filter pipeline of the real-time video filtering and detection tool

This project models the filter pipeline of the tool. Each video frame passes through an ordered
chain of image filters before detection and rendering. The model covers:

- the `FilterChain`, an ordered, mutable sequence of shared filters, with `append`, `remove`,
  `move`, `clear`, `process`, `find` and `size`;
- the common filter interface `FilterBase`: its identifier, its enable flag and the rule that a
  disabled filter hands back its input;
- the five concrete filters (Gaussian blur, Canny edges, threshold, histogram equalisation,
  grayscale). The model includes `setParams` for the four filters that have parameters and
  `GaussianFilter::params`, along with the parameter normalisation in the Gaussian and threshold
  filters. An even kernel size is bumped to the next odd value and then clamped to at least 1. The
  adaptive block size is treated the same way, clamped to at least 3.

How the model is built:

- **Frames.** A `cv::Mat` is a term (`Frames.Frame`) that records the OpenCV calls made on a frame
  from the source, with a channel count. Pixel values are not modelled. A filter's transform is
  therefore uninterpreted: two frames are equal exactly when the same calls were made on the same
  input.
- **Filter classes.** The C++ class hierarchy becomes one class `FilterBase.Filter`. It has a constant
  `kind` (which fixes `id()`), a mutable `enabled` flag and a mutable `params` field. `params` is a
  tagged union of the concrete classes' parameter structs, and `Valid()` ties it to `kind`.
- **Chain.** The chain is a class whose `filters` field is a `seq` of filter references. A filter can
  be shared, just as with `shared_ptr`.
- **Integers.** `int` parameters are 32-bit (`Native.int32`). The C++ test `k % 2 == 0` is written with
  truncated remainder (`Native.CppRem2`). Doubles are carried as `real` and never computed with.

A disabled filter's `apply` returns `src.clone()` (src/core/Filter/FilterBase.h:18,
src/core/Filter/GaussianFilter.cpp:23). `FilterChain::process` returns `src` itself when no filter
is enabled (src/core/Filter/FilterChain.cpp:39). Frames are values here, so in both cases the model
says only that the result equals the input.

## Model

| member | source | states |
|---|---|---|
| `Native.CppRem2` | src/core/Filter/GaussianFilter.cpp:33 | C++ `a % 2` truncates toward zero: the result lies in (-2, 2), differs from `a` by a multiple of 2 and has the sign of `a` |
| `Native.CppEvenIsEven` | src/core/Filter/ThresholdFilter.cpp:34 | the source's evenness test `x % 2 == 0` holds exactly for even x, negative values included (so -3 counts as odd) |
| `GaussianFilter.NormKernel` | src/core/Filter/GaussianFilter.cpp:32-34 | the kernel size used is odd, at least 1 and at least k, and no larger than any odd value that is at least max(k,1). Sizes below 1 become 1, an odd k >= 1 is kept and an even k >= 2 becomes k+1. The k+1 step never overflows 32 bits |
| `GaussianFilter.NormKernelIdempotent` | src/core/Filter/GaussianFilter.cpp:32-34 | normalising a normalised kernel size changes nothing |
| `GaussianFilter.Output` | src/core/Filter/GaussianFilter.cpp:32-38 | an enabled Gaussian filter blurs its input with kernel size `NormKernel(kernelSize)`, which is odd and at least 1, and with the configured sigmaX/sigmaY. It keeps the channel count |
| `GaussianFilter.Apply` | src/core/Filter/GaussianFilter.cpp:25-38 | the step-by-step update of the local kernel size produces exactly `Output` |
| `ThresholdFilter.NormBlock` | src/core/Filter/ThresholdFilter.cpp:33-35 | the adaptive block size is odd, at least 3 and at least bs, and no larger than any odd value that is at least max(bs,3). Sizes below 3 become 3, an odd bs >= 3 is kept and an even bs >= 4 becomes bs+1 |
| `ThresholdFilter.NormBlockIdempotent` | src/core/Filter/ThresholdFilter.cpp:33-35 | normalising a normalised block size changes nothing |
| `ThresholdFilter.Binarize` | src/core/Filter/ThresholdFilter.cpp:28-43 | the `switch` on the mode: Fixed makes a binary threshold at `value`, Adaptive an adaptive threshold with the normalised block size (odd, at least 3) and `C`, Otsu an automatic threshold. Each mode makes exactly its own call, with maximum value 255, on the grey image, and keeps its channel count |
| `ThresholdFilter.Output` | src/core/Filter/ThresholdFilter.cpp:25-46 | in every mode an enabled threshold filter binarises the grey image and promotes it to a 3-channel frame |
| `ThresholdFilter.Apply` | src/core/Filter/ThresholdFilter.cpp:19-46 | the mode switch, with its step-by-step block-size update, produces exactly `Output` |
| `ThresholdFilter.FixedUsesValueOnly` | src/core/Filter/ThresholdFilter.cpp:29-31 | in Fixed mode two parameter sets give the same output exactly when their `value` agrees, so blockSize and C are ignored |
| `ThresholdFilter.AdaptiveUsesBlockAndC` | src/core/Filter/ThresholdFilter.cpp:32-39 | in Adaptive mode two parameter sets give the same output exactly when their normalised block sizes and their C agree, so `value` is ignored |
| `ThresholdFilter.OtsuIgnoresParams` | src/core/Filter/ThresholdFilter.cpp:40-42 | in Otsu mode the output does not depend on value, blockSize or C |
| `ThresholdFilter.ModesDiffer` | src/core/Filter/ThresholdFilter.cpp:28-43 | different modes never produce the same library-call term (a fact about the calls made, not about pixels) |
| `CannyFilter.Output` | src/core/Filter/CannyFilter.cpp:25-29 | an enabled Canny filter runs edge detection on the grey image with the configured thresholds, aperture and L2 flag, and promotes the result to 3 channels |
| `HistEqFilter.Output` | src/core/Filter/HistEqFilter.cpp:25-44 | an enabled equalisation filter works on the YCrCb luma channel, uses CLAHE exactly when `useCLAHE` is set, and returns a 3-channel frame |
| `HistEqFilter.GlobalIgnoresClaheFields` | src/core/Filter/HistEqFilter.cpp:32-38 | without CLAHE the clip limit and tile grid do not affect the output |
| `HistEqFilter.EqualizerOf` | src/core/Filter/HistEqFilter.cpp:32-38 | CLAHE is chosen exactly when `useCLAHE` is set, and then with the configured clip limit and tile grid. Otherwise it is global histogram equalisation |
| `GrayscaleFilter.Output` | src/core/Filter/GrayscaleFilter.cpp:9-12 | an enabled grayscale filter returns the grey image promoted to 3 channels |
| `FilterBase.KindId` | src/core/Filter/GaussianFilter.h:17 | each of the literals "gaussian", "canny", "threshold", "histeq" and "grayscale" (GaussianFilter.h:17, CannyFilter.h:17, ThresholdFilter.h:19, HistEqFilter.h:17, GrayscaleFilter.h:6) is the id of exactly one filter class |
| `FilterBase.KindIdInjective` | src/core/Filter/FilterBase.h:12-13 | the five fixed ids ("gaussian", "canny", "threshold", "histeq", "grayscale") are pairwise distinct, so an id names exactly one filter class |
| `FilterBase.Effect` | src/core/Filter/FilterBase.h:9-10 | virtual dispatch of an enabled `apply` to the concrete filter named by the parameter variant. The Gaussian blur keeps the channel count, and every other filter returns three channels |
| `FilterBase.EffectKeepsThreeChannels` | src/core/Filter/ThresholdFilter.cpp:45-46 | every enabled filter turns a 3-channel frame into a 3-channel frame |
| `FilterBase.Filter.Gaussian` | src/core/Filter/GaussianFilter.cpp:4-6 | a new Gaussian filter holds the given parameters, by default those of `GaussianParams{}` (GaussianFilter.h:5-13), and is enabled (FilterBase.h:23) |
| `FilterBase.Filter.Canny` | src/core/Filter/CannyFilter.cpp:4-6 | a new Canny filter holds the given parameters, by default those of `CannyParams{}` (CannyFilter.h:5-14), and is enabled |
| `FilterBase.Filter.Threshold` | src/core/Filter/ThresholdFilter.cpp:4-6 | a new threshold filter holds the given parameters, by default those of `ThresholdParams{}` (ThresholdFilter.h:7-16), and is enabled |
| `FilterBase.Filter.HistEq` | src/core/Filter/HistEqFilter.cpp:4-6 | a new equalisation filter holds the given parameters, by default those of `HistEqParams{}` (HistEqFilter.h:5-14), and is enabled |
| `FilterBase.Filter.Grayscale` | src/core/Filter/FilterBase.h:23 | a new grayscale filter is enabled |
| `FilterBase.Filter.Id` | src/core/Filter/FilterBase.h:12-13 | `id()` is `KindId` of the filter's class. It depends on the class alone, so `setEnabled` and `setParams` never change the key that `remove` and `find` match on |
| `FilterBase.Filter.SetEnabled` | src/core/Filter/FilterBase.h:19-20 | afterwards the flag is `e` and the parameters are unchanged |
| `FilterBase.Filter.SetGaussianParams` | src/core/Filter/GaussianFilter.cpp:8-12 | the whole parameter struct is replaced by `p`, and the flag is unchanged |
| `FilterBase.Filter.GaussianParamsOf` | src/core/Filter/GaussianFilter.cpp:14-18 | returns the stored struct, so it gives back what `SetGaussianParams` stored |
| `FilterBase.Filter.Output` | src/core/Filter/FilterBase.h:18 | what `apply` returns: the input itself when the filter is disabled, and its class's effect when it is enabled. A 3-channel input gives a 3-channel output |
| `FilterBase.Filter.SetCannyParams` | src/core/Filter/CannyFilter.cpp:8-12 | the whole parameter struct is replaced, and the flag is unchanged |
| `FilterBase.Filter.SetThresholdParams` | src/core/Filter/ThresholdFilter.cpp:8-12 | the whole parameter struct is replaced, and the flag is unchanged |
| `FilterBase.Filter.SetHistEqParams` | src/core/Filter/HistEqFilter.cpp:8-12 | the whole parameter struct is replaced, and the flag is unchanged |
| `FilterBase.Filter.Apply` | src/core/Filter/FilterBase.h:18 | a disabled filter returns its input's value and makes no library call. An enabled one dispatches on its class (`kind`) and returns that filter's output |
| `FilterChain.Without` | src/core/Filter/FilterChain.cpp:13-16 | no survivor of `remove(id)` carries `id`, and every survivor comes from the old chain |
| `FilterChain.WithoutConcat` | src/core/Filter/FilterChain.cpp:13-16 | removal distributes over concatenation, so survivors keep their relative order |
| `FilterChain.WithoutCounts` | src/core/Filter/FilterChain.cpp:13-16 | every match is removed, and every other filter keeps its number of occurrences |
| `FilterChain.WithoutAbsent` | src/core/Filter/FilterChain.cpp:10-17 | removing an id that no filter carries leaves the chain unchanged |
| `FilterChain.WithoutIdempotent` | src/core/Filter/FilterChain.cpp:10-17 | removing the same id twice is the same as removing it once |
| `FilterChain.Moved` | src/core/Filter/FilterChain.cpp:25-27 | erase at `from`, then insert the erased filter at `to`. The length is kept and the moved filter lands at `to` |
| `FilterChain.MovedAt` | src/core/Filter/FilterChain.cpp:25-27 | after erase-then-insert the moved filter sits at `to`, the filters between the two positions shift one place toward `from`, and all others stay in place |
| `FilterChain.MovedKeepsOthers` | src/core/Filter/FilterChain.cpp:25-27 | deleting the moved filter from the result gives the input with `from` deleted, so the other filters keep their relative order |
| `FilterChain.MovedPermutes` | src/core/Filter/FilterChain.cpp:25-27 | a move keeps the length and the multiset of filters |
| `FilterChain.MovedInverse` | src/core/Filter/FilterChain.cpp:19-28 | `move(to, from)` undoes `move(from, to)` |
| `FilterChain.MovedSame` | src/core/Filter/FilterChain.cpp:22 | moving a filter onto its own index changes nothing, which agrees with the early return for `from == to` |
| `FilterChain.Pipeline` | src/core/Filter/FilterChain.cpp:39-45 | the fold in `process`: the running frame passes through each filter's `apply` result, first filter to last. When no filter is enabled it is the input |
| `FilterChain.PipelineIsEnabledEffects` | src/core/Filter/FilterChain.cpp:36-46 | `process` equals applying the enabled filters' effects first to last, with no enable flag consulted |
| `FilterChain.NoEnabledFilterIsIdentity` | src/core/Filter/FilterChain.cpp:39-45 | a chain with no enabled filter returns its input |
| `FilterChain.SameEnabledSameOutput` | src/core/Filter/FilterChain.cpp:40-44 | chains with the same enabled filters in the same order process every frame alike, so a disabled filter counts as absent |
| `FilterChain.PipelineConcat` | src/core/Filter/FilterChain.cpp:40-44 | processing a concatenation of chains equals processing one part after the other |
| `FilterChain.PipelineKeepsThreeChannels` | src/core/Filter/FilterChain.cpp:36-46 | a 3-channel input stays 3-channel through the whole chain |
| `FilterChain.IndexOfId` | src/core/Filter/FilterChain.cpp:51-54 | gives the position of the first filter with the id, or the length when there is none: no earlier filter matches, and the one found does |
| `FilterChain.NotFoundAfterRemove` | src/core/Filter/FilterChain.cpp:10-17 | after `remove(id)`, looking up `id` finds nothing |
| `FilterChain.FilterChain.constructor` | src/core/Filter/FilterChain.h:32 | a new chain is empty |
| `FilterChain.FilterChain.Append` | src/core/Filter/FilterChain.cpp:4-8 | the chain becomes its old contents followed by `f`, so the size grows by one |
| `FilterChain.FilterChain.Remove` | src/core/Filter/FilterChain.cpp:10-17 | the compacting pass leaves exactly `Without(old chain, id)` |
| `FilterChain.FilterChain.Move` | src/core/Filter/FilterChain.cpp:19-28 | with `from` or `to` out of range, or `from == to`, nothing changes. Otherwise the chain becomes `Moved(old chain, from, to)` |
| `FilterChain.FilterChain.Clear` | src/core/Filter/FilterChain.cpp:30-34 | the chain is empty afterwards |
| `FilterChain.FilterChain.Process` | src/core/Filter/FilterChain.cpp:36-46 | the result is the left-to-right fold over the chain. The filters whose apply() ran are exactly the enabled ones, in order. The chain is not modified, because the method has no `modifies` clause. It requires each held filter's class invariant `Valid()`, which every constructor and setter keeps |
| `FilterChain.FilterChain.Find` | src/core/Filter/FilterChain.cpp:48-56 | returns the first filter whose id is `id`, or null when none matches |
| `FilterChain.FilterChain.Size` | src/core/Filter/FilterChain.cpp:58-62 | returns the number of filters held, which is 0 after `Clear` |

## Left out

- Pixel arithmetic: `cv::GaussianBlur`, `cv::Canny`, `cv::threshold`, `cv::adaptiveThreshold`, CLAHE,
  `equalizeHist`, `cvtColor`, `split` and `merge` are foreign library calls. Each appears only as a
  constructor of `Frames.Frame`.
- Buffer identity: the model does not say whether `apply`/`process` return the caller's buffer or a
  clone (`src.clone()` in each disabled filter, `src` itself in the chain). Frames are values here.
- Null filters: `filters` holds non-null references and `Append` takes a non-null filter. The source's
  `append` accepts a null `shared_ptr`, which `remove`, `process` and `find` would then dereference
  (src/core/Filter/FilterChain.cpp:15, 41, 52). That undefined behaviour is not modelled.
- OpenCV failures: every `Frames.Frame` constructor is total, so the model returns a frame where the
  library call throws. Examples are `cv::Canny` with an aperture other than 3, 5 or 7
  (src/core/Filter/CannyFilter.cpp:27) and a BGR-to-grey conversion of a 1-channel frame.
  Exceptions raised by the library are not modelled.
- Floating-point parameters (sigmas, Canny thresholds, threshold value, C, clip limit) are carried as
  `real` and never computed with.
- Mutexes (`m_mutex`, `m_mu`): every operation is modelled as one atomic step.
- Each concrete class repeats the disabled pass-through inside its own `apply`. The model states it
  once, in `FilterBase.Filter.Apply`.
- `enabled()` is a read of the `enabled` field and has no member of its own.
- `name()` returns human-readable display strings for the UI and is not modelled.
- Detector, label map, detection renderer, video recorder, result exporter, video controller, video
  sources and the Qt main window are not part of this model. They are declarations, I/O, threads or
  UI, with no implementation logic to model.
