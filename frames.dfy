/** Frames (cv::Mat) and the OpenCV calls the filters make, as a term algebra:
    a frame is either one delivered by the video source or the result of one
    library call on another frame. Pixel arithmetic is not modelled; two
    frames are equal exactly when they come from the same calls on the same
    input. */
module Frames {
  import opened Native

  /** How the luma channel of a YCrCb frame is equalised. */
  datatype Equalizer =
    | Clahe(clipLimit: real, tileGridW: int32, tileGridH: int32)   // cv::createCLAHE(...)->apply
    | GlobalHist                                                     // cv::equalizeHist

  datatype Frame =
    | Source(serial: nat, channels: nat)                                       // frame from the source
    | Blur(src: Frame, ksize: int32, sigmaX: real, sigmaY: real)               // cv::GaussianBlur
    | Gray(src: Frame)                                                         // cvtColor BGR2GRAY
    | Bgr(src: Frame)                                                          // cvtColor GRAY2BGR
    | Edges(src: Frame, threshold1: real, threshold2: real,
            aperture: int32, l2gradient: bool)                                 // cv::Canny
    | Binary(src: Frame, cutoff: real, maxValue: int)                          // cv::threshold, THRESH_BINARY
    | OtsuBinary(src: Frame, maxValue: int)                                    // cv::threshold, THRESH_BINARY | THRESH_OTSU
    | AdaptiveBinary(src: Frame, maxValue: int, blockSize: int32, c: real)     // cv::adaptiveThreshold, GAUSSIAN_C
    | ToYCrCb(src: Frame)                                                      // cvtColor BGR2YCrCb
    | EqualizeLuma(src: Frame, how: Equalizer)                                 // split, equalise channel 0, merge
    | FromYCrCb(src: Frame)                                                    // cvtColor YCrCb2BGR

  /** Number of channels of a frame: colour conversions fix it, the
      single-channel operators keep their input's. */
  function Channels(f: Frame): nat {
    match f
    case Source(_, c) => c
    case Blur(s, _, _, _) => Channels(s)
    case Gray(_) => 1
    case Bgr(_) => 3
    case Edges(_, _, _, _, _) => 1
    case Binary(s, _, _) => Channels(s)
    case OtsuBinary(s, _) => Channels(s)
    case AdaptiveBinary(s, _, _, _) => Channels(s)
    case ToYCrCb(_) => 3
    case EqualizeLuma(s, _) => Channels(s)
    case FromYCrCb(_) => 3
  }
}
