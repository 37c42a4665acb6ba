/** Fourier-based demodulation of the processor's single image: high-pass
    filtering, a quadrature downshift by row-indexed cosine and sine carriers
    of period T, low-pass filtering of both mixes, and magnitude
    reconstruction. Samples are reals. The filter design and the zero-phase
    filter of scipy.signal, and numpy's cos, sin and sqrt, are parameters of
    the model: only the properties listed in SignalLibrary.Sound are assumed
    of them. */
module Demodulation {
  import opened Arrays
  import opened MicroscopeProcessor

  /** np.pi, to the 16 significant digits Python prints. */
  const Pi: real := 3.141592653589793

  /** The `btype` handed to scipy.signal.butter. */
  datatype FilterType = HighPass | LowPass

  /** The `axis` handed to scipy.signal.filtfilt: 0 runs down the rows
      (along H), 1 along the columns (along W). */
  datatype Axis = AlongRows | AlongColumns

  /** The numerator `b` and denominator `a` of a digital filter. */
  datatype Coefficients = Coefficients(b: seq<real>, a: seq<real>)

  /** The foreign numerical functions the demodulation calls:
      butter(order, Wn, btype) for the coefficients of an accepted design,
      filtfilt(coefficients, x, axis), and cos, sin and sqrt. */
  datatype SignalLibrary = SignalLibrary(
    butter: (int, real, FilterType) -> Coefficients,
    filtfilt: (Coefficients, seq<seq<real>>, Axis) -> seq<seq<real>>,
    cos: real -> real,
    sin: real -> real,
    sqrt: real -> real)
  {
    /** What the model relies on: filtfilt returns an array of the shape it
        was given, and sqrt returns the non-negative square root. */
    ghost predicate Sound()
    {
      (forall coeffs, x, axis :: IsPlane(x) ==> IsGrid(filtfilt(coeffs, x, axis), |x|, Width(x))) &&
      (forall v: real :: v >= 0.0 ==> sqrt(v) >= 0.0 && sqrt(v) * sqrt(v) == v)
    }
  }

  /** The six arrays the demodulation returns, in the order it returns them. */
  datatype Stages = Stages(
    highPass: seq<seq<real>>,
    aMix: seq<seq<real>>,
    bMix: seq<seq<real>>,
    aLowPass: seq<seq<real>>,
    bLowPass: seq<seq<real>>,
    final: seq<seq<real>>)

  /** scipy.signal.butter accepts a digital design only for a non-negative
      order and a normalized critical frequency strictly between 0 and 1. */
  predicate AcceptedByButter(order: int, wn: real)
  {
    order >= 0 && 0.0 < wn < 1.0
  }

  /** The cutoff frequency 1 / T of a carrier of period T; Python raises
      ZeroDivisionError for T == 0. */
  function CutoffFrequency(T: int): (r: Result<real>)
    ensures r.Ok? <==> T != 0
    ensures r.Err? ==> r.error == ZeroDivision
    ensures r.Ok? ==> r.value * (T as real) == 1.0
  {
    if T == 0 then Err(ZeroDivision) else Ok(1.0 / T as real)
  }

  /** _butter_filter: normalizes the cutoff by the Nyquist frequency 0.5 and
      asks for a design of the given order and type. */
  function ButterFilter(lib: SignalLibrary, cutoff: real, order: int, kind: FilterType): (r: Result<Coefficients>)
    ensures r.Ok? <==> order >= 0 && 0.0 < 2.0 * cutoff < 1.0
    ensures r.Err? ==> r.error == InvalidFilterDesign
    ensures r.Ok? ==> r.value == lib.butter(order, 2.0 * cutoff, kind)
  {
    var wn := cutoff / 0.5;
    if AcceptedByButter(order, wn) then Ok(lib.butter(order, wn, kind)) else Err(InvalidFilterDesign)
  }

  /** _apply_filter: zero-phase filtering along axis 0, then along axis 1.
      The result has the shape of the input. */
  function ApplyFilter(lib: SignalLibrary, img: seq<seq<real>>, coeffs: Coefficients): (r: seq<seq<real>>)
    requires lib.Sound() && IsPlane(img)
    ensures IsGrid(r, |img|, Width(img))
  {
    var alongRows := lib.filtfilt(coeffs, img, AlongRows);
    lib.filtfilt(coeffs, alongRows, AlongColumns)
  }

  /** The phase 2 * pi * x / T of row x. */
  function Phase(x: nat, T: int): real
    requires T != 0
  {
    2.0 * Pi * (x as real) / (T as real)
  }

  /** A carrier `wave(2 * pi * x / T)` for each row index x in 0 .. rows - 1:
      one value per row, which the mixing broadcasts across the columns. */
  function Carrier(wave: real -> real, rows: nat, T: int): (r: seq<real>)
    requires T != 0
    ensures |r| == rows
    ensures forall x :: 0 <= x < rows ==> r[x] == wave(Phase(x, T))
  {
    seq(rows, x requires 0 <= x < rows => wave(Phase(x, T)))
  }

  /** Element-wise product of an (H, W) image with an (H, 1) column. */
  function Mix(img: seq<seq<real>>, carrier: seq<real>): (r: seq<seq<real>>)
    requires IsPlane(img) && |carrier| == |img|
    ensures IsGrid(r, |img|, Width(img))
    ensures forall h, w :: 0 <= h < |img| && 0 <= w < Width(img) ==> r[h][w] == img[h][w] * carrier[h]
  {
    seq(|img|, h requires 0 <= h < |img| => seq(|img[h]|, w requires 0 <= w < |img[h]| => img[h][w] * carrier[h]))
  }

  /** The per-pixel magnitude sqrt(a^2 + b^2) of two images of one shape. */
  function Magnitude(lib: SignalLibrary, a: seq<seq<real>>, b: seq<seq<real>>): (r: seq<seq<real>>)
    requires lib.Sound() && IsPlane(a) && IsGrid(b, |a|, Width(a))
    ensures IsGrid(r, |a|, Width(a))
    ensures forall h, w :: 0 <= h < |a| && 0 <= w < Width(a) ==>
      r[h][w] >= 0.0 && r[h][w] * r[h][w] == a[h][w] * a[h][w] + b[h][w] * b[h][w]
  {
    seq(|a|, h requires 0 <= h < |a| =>
      seq(|a[h]|, w requires 0 <= w < |a[h]| => lib.sqrt(a[h][w] * a[h][w] + b[h][w] * b[h][w])))
  }

  /** The normalized critical frequency the demodulation hands scipy is
      (1 / T) / 0.5 = 2 / T, and scipy accepts it exactly when T > 2. */
  lemma NormalizedCutoff(T: int)
    requires T != 0
    ensures (1.0 / T as real) / 0.5 == 2.0 / T as real
    ensures 0.0 < 2.0 / T as real < 1.0 <==> T > 2
  {
  }

  /** The four stages of fourier_based_demodulation for a period T and the
      high-pass and low-pass coefficients: each stage consumes the previous
      stage's output, and every artifact has the shape of the input image. */
  function RunStages(lib: SignalLibrary, img: seq<seq<real>>, T: int, high: Coefficients, low: Coefficients): (s: Stages)
    requires lib.Sound() && IsPlane(img) && T != 0
    ensures IsGrid(s.highPass, |img|, Width(img)) && IsGrid(s.aMix, |img|, Width(img)) &&
            IsGrid(s.bMix, |img|, Width(img)) && IsGrid(s.aLowPass, |img|, Width(img)) &&
            IsGrid(s.bLowPass, |img|, Width(img)) && IsGrid(s.final, |img|, Width(img))
    ensures s.highPass == ApplyFilter(lib, img, high)
    ensures forall h, w :: 0 <= h < |img| && 0 <= w < Width(img) ==>
      s.aMix[h][w] == s.highPass[h][w] * lib.cos(Phase(h, T)) &&
      s.bMix[h][w] == s.highPass[h][w] * lib.sin(Phase(h, T))
    ensures IsPlane(s.aMix) && s.aLowPass == ApplyFilter(lib, s.aMix, low)
    ensures IsPlane(s.bMix) && s.bLowPass == ApplyFilter(lib, s.bMix, low)
    ensures forall h, w :: 0 <= h < |img| && 0 <= w < Width(img) ==>
      s.final[h][w] >= 0.0 &&
      s.final[h][w] * s.final[h][w] == s.aLowPass[h][w] * s.aLowPass[h][w] + s.bLowPass[h][w] * s.bLowPass[h][w]
  {
    var highPass := ApplyFilter(lib, img, high);
    var aMix := Mix(highPass, Carrier(lib.cos, |img|, T));
    var bMix := Mix(highPass, Carrier(lib.sin, |img|, T));
    var aLowPass := ApplyFilter(lib, aMix, low);
    var bLowPass := ApplyFilter(lib, bMix, low);
    Stages(highPass, aMix, bMix, aLowPass, bLowPass, Magnitude(lib, aLowPass, bLowPass))
  }

  /** fourier_based_demodulation(T, order): fails before any array work
      when T is 0 or scipy rejects the filter design, that is unless T > 2
      and order >= 0; otherwise runs the four stages with a high-pass and a
      low-pass design of the given order at normalized cutoff 2 / T. */
  function Demodulate(p: Processor, T: int, order: int, lib: SignalLibrary): (r: Result<Stages>)
    requires p.Valid() && lib.Sound()
    ensures r.Ok? <==> T > 2 && order >= 0
    ensures T == 0 ==> r == Err(ZeroDivision)
    ensures T != 0 && r.Err? ==> r.error == InvalidFilterDesign
    ensures r.Ok? ==> r.value == RunStages(lib, p.img, T,
      lib.butter(order, 2.0 / T as real, HighPass), lib.butter(order, 2.0 / T as real, LowPass))
  {
    match CutoffFrequency(T)
    case Err(e) => Err(e)
    case Ok(cutoff) =>
      NormalizedCutoff(T);
      match ButterFilter(lib, cutoff, order, HighPass)
      case Err(e) => Err(e)
      case Ok(high) =>
        var low := ButterFilter(lib, cutoff, order, LowPass).value;
        Ok(RunStages(lib, p.img, T, high, low))
  }

  /** With carriers that satisfy cos^2 + sin^2 = 1, the two mixes split each
      pixel's energy without loss: aMix^2 + bMix^2 equals the squared input. */
  lemma QuadratureEnergy(lib: SignalLibrary, img: seq<seq<real>>, T: int)
    requires T != 0 && IsPlane(img)
    requires forall t: real :: lib.cos(t) * lib.cos(t) + lib.sin(t) * lib.sin(t) == 1.0
    ensures
      var a := Mix(img, Carrier(lib.cos, |img|, T));
      var b := Mix(img, Carrier(lib.sin, |img|, T));
      forall h, w :: 0 <= h < |img| && 0 <= w < Width(img) ==>
        a[h][w] * a[h][w] + b[h][w] * b[h][w] == img[h][w] * img[h][w]
  {
  }

  /** For a 2*pi-periodic wave and T > 0, the carrier repeats every T rows:
      the modulation runs down the rows (axis 0), with period T. */
  lemma CarrierHasPeriodT(wave: real -> real, rows: nat, T: int)
    requires T > 0
    requires forall t: real :: wave(t + 2.0 * Pi) == wave(t)
    ensures forall x :: 0 <= x && x + T < rows ==> Carrier(wave, rows, T)[x + T] == Carrier(wave, rows, T)[x]
  {
  }

  /** The smallest periods the GUI's spin box offers, T = 1 and T = 2, give a
      normalized cutoff of 2 and 1, which scipy rejects, whatever the order. */
  lemma SmallestPeriodsRejected(p: Processor, order: int, lib: SignalLibrary)
    requires p.Valid() && lib.Sound()
    ensures Demodulate(p, 1, order, lib) == Err(InvalidFilterDesign)
    ensures Demodulate(p, 2, order, lib) == Err(InvalidFilterDesign)
  {
  }
}
