# Microscope processor: frame combination and demodulation

A model of the `MicroscopeProcessor` class. The processor is built from a 3-D stack
of C frames of shape (H, W) and a single 2-D image. It offers two groups of operations:

- two frame-combination algorithms. Each reduces the stack along its frame axis to
  one (H, W) image:
  - `average_projection` is the per-pixel sum over the frames.
  - `max_min_projection` is the per-pixel maximum over the frames minus the minimum.
- the four stages of Fourier-based demodulation of the single image:
  1. high-pass filtering;
  2. mixing with row-indexed cosine and sine carriers of period T;
  3. low-pass filtering of both mixes;
  4. magnitude reconstruction.

Module layout:

- `Arrays` (arrays.dfy): shape predicates for 2-D arrays, the error kinds and a `Result` type.
- `Reductions` (reductions.dfy): `Sum`, `Max` and `Min` of the values that one pixel takes
  across the frames, with their characterising lemmas.
- `MicroscopeProcessor` (microscope_processor.dfy): the stack as a `Cube`, the processor
  as a `Processor` value, the constructor `Init`, the two projections, and their lemmas.
  - The projections are methods. Their loops walk the pixels, and for each pixel the
    frames. The innermost loop invariant is the sum (or the maximum and minimum) over the
    frames seen so far.
  - Nothing is updated in place. The processor is an immutable value, which matches the
    source: no method assigns `stack`, `img` or `C_stack` after `__init__`.
- `Demodulation` (demodulation.dfy): `fourier_based_demodulation` over `real`.
  - These foreign functions are fields of a `SignalLibrary` value: scipy's `butter` and
    `filtfilt`, and numpy's `cos`, `sin` and `sqrt`.
  - The model assumes only two things about them (`SignalLibrary.Sound`): `filtfilt`
    keeps the shape of its input, and `sqrt` returns the non-negative square root.

Behaviour the model follows from the code. Where a design description of the system
says otherwise, the code wins:

- The comment on `average_projection` says "mean", but the code sums. The model sums,
  and `SumOfRepeatedFrame` shows the result grows with C.
- A stack with no frames is not rejected by construction. Its sum projection is an
  all-zero (H, W) image. Its max-min projection fails, because numpy cannot reduce an
  empty axis with `max` or `min`.
- The cutoff is `1 / T` and the normalized critical frequency is `(1 / T) / 0.5 = 2 / T`.
  scipy's `butter` accepts it only strictly inside (0, 1), so demodulation succeeds
  exactly when T > 2 and the order is non-negative.
  - T = 1 and T = 2 therefore fail, although the GUI's period spin box starts at 1.
  - T = 0 raises a division by zero.
- The carrier is indexed by row (`img.shape[0]`, axis 0) and broadcast across the
  columns, even though a comment in the code says the modulation runs "along width".
- The constructor takes the stack and the image together; there are no separate binding
  calls. Construction fails only when the stack is not 3-D, because the unpack
  `C, _, _ = shape` then raises.

## Model

| member | source | states |
|---|---|---|
| MicroscopeProcessor.Init | microscope_processor.py:8-11 | succeeds exactly when the stack is 3-D, otherwise fails with ShapeUnpack; the processor stores the stack and image as given and C_stack is the length of the first axis |
| MicroscopeProcessor.PixelSum | microscope_processor.py:14-16 | the frame-by-frame accumulation of one pixel equals Sum of that pixel's values over all frames |
| MicroscopeProcessor.AverageProjection | microscope_processor.py:13-16 | returns an H×W image whose pixel (h, w) is the sum of stack[c][h][w] over all c, not divided by C; zeros for C = 0 |
| MicroscopeProcessor.PixelRange | microscope_processor.py:19-22 | the running maximum minus the running minimum of one pixel equals Max minus Min of its values over all frames |
| MicroscopeProcessor.MaxMinProjection | microscope_processor.py:18-22 | fails with EmptyReduction exactly when C = 0; otherwise returns an H×W image whose pixel is max over c minus min over c |
| MicroscopeProcessor.SumOfOneFrame | microscope_processor.py:14-16 | the sum projection of a one-frame stack is that frame unchanged |
| MicroscopeProcessor.SumOfTwoConstantFrames | microscope_processor.py:14-16 | two constant frames a and b (e.g. 3 and 5) give the constant a + b (8) |
| MicroscopeProcessor.SumOfRepeatedFrame | microscope_processor.py:13-16 | C copies of a frame f give C·f: a sum, not a mean |
| MicroscopeProcessor.RangeZeroIffFramesAgree | microscope_processor.py:19-22 | each max-min pixel is ≥ 0, and it is 0 if and only if all frames agree at that pixel |
| MicroscopeProcessor.RangeOfOneFrame | microscope_processor.py:21-22 | the max-min projection of a one-frame stack is all zeros |
| MicroscopeProcessor.RangeOfTwoConstantFrames | microscope_processor.py:21-22 | two constant frames a and b give the constant abs(b − a) (frames of zeros and ones give ones) |
| Reductions.SumOfConstant | microscope_processor.py:16 | the sum over n equal values v is n·v |
| Reductions.MaxIsMaximum | microscope_processor.py:20-22 | Max of a non-empty sequence is one of its elements and no element is larger |
| Reductions.MinIsMinimum | microscope_processor.py:20-22 | Min of a non-empty sequence is one of its elements and no element is smaller |
| Reductions.RangeZeroIffConstant | microscope_processor.py:22 | Max − Min is ≥ 0, and it is 0 if and only if all elements are equal |
| Demodulation.CutoffFrequency | microscope_processor.py:56 | succeeds exactly when T ≠ 0, with cutoff · T = 1; otherwise ZeroDivision |
| Demodulation.ButterFilter | microscope_processor.py:36-40 | accepted exactly when order ≥ 0 and 0 < 2·cutoff < 1, the design then being butter(order, 2·cutoff, type); otherwise InvalidFilterDesign |
| Demodulation.NormalizedCutoff | microscope_processor.py:38-56 | the normalized frequency (1/T)/0.5 equals 2/T and lies strictly inside (0, 1) if and only if T > 2 |
| Demodulation.ApplyFilter | microscope_processor.py:44-51 | filtering along axis 0 then axis 1 returns an array of the input's shape |
| Demodulation.Carrier | microscope_processor.py:64-68 | one carrier value per row index x < img.shape[0], equal to wave(2πx/T) |
| Demodulation.CarrierHasPeriodT | microscope_processor.py:64-68 | for a 2π-periodic wave the carrier repeats every T rows |
| Demodulation.Mix | microscope_processor.py:70-71 | an (H, W) result with mix[r][c] = hp[r][c] · carrier[r]: the row carrier is broadcast over the columns |
| Demodulation.QuadratureEnergy | microscope_processor.py:62-71 | with cos² + sin² = 1, A_mix² + B_mix² equals hp² at every pixel |
| Demodulation.Magnitude | microscope_processor.py:81 | every pixel r is ≥ 0 and r² = A_lp² + B_lp² |
| Demodulation.RunStages | microscope_processor.py:58-83 | the six artifacts, in the returned order, all (H, W); stages chained hp → mixes → low-passes → magnitude with the relations above |
| Demodulation.Demodulate | microscope_processor.py:54-83 | succeeds exactly when T > 2 and order ≥ 0; fails with ZeroDivision for T = 0 and InvalidFilterDesign otherwise; on success returns the four stages run with high- and low-pass designs at normalized cutoff 2/T |
| Demodulation.SmallestPeriodsRejected | main_gui.py:187 | the periods 1 and 2 that the GUI allows make demodulation fail with InvalidFilterDesign |

## Left out

- `weighted_complex_average` (microscope_processor.py:25-31) is not modelled. It sums complex exponential weights over floats and takes an absolute value, so no exact model over integers or reals is practical.
- `load_tif` and `load_png` are not modelled: they are file decoding by tifffile and imageio.
- Pixels are mathematical integers. numpy's dtype of the stack, the widening in `np.sum` and any wrap-around are not modelled.
- A stack argument that is not a numpy array (`None`, as some callers pass) is not modelled. It would raise AttributeError at line 11.
- The single image is modelled only as a 2-D array. A colour PNG gives a 3-D array, and its broadcasting is not modelled.
- Demodulation.Demodulate: floating-point rounding is not modelled; samples, np.pi, 1/T and the phase are exact reals.
- Demodulation.ApplyFilter: the coefficients from `butter` and the output values of `filtfilt` are uninterpreted, and only shape preservation is assumed. filtfilt's error for inputs no longer than its padding length is not modelled.
- Demodulation.Magnitude: `sqrt` is specified by its defining relation. The numeric values of `cos` and `sin` are parameters.
- The order in which scipy checks order and critical frequency is not modelled. Both rejections are the single error InvalidFilterDesign.
- The GUI (main_gui.py) and the script run_processing.py are not modelled. Nor are their calls that do not match the two-argument constructor (a zero- or one-argument constructor, `add_stack_img`, `add_single_img`).
- A frequency-domain (mask-based) Butterworth filter design is not modelled: microscope_processor.py uses only the recursive scipy design.
