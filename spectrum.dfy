/** The bookkeeping of the single-sided spectrum: which FFT bins are kept and
    the frequency, in Hz, that labels each of them. Frequencies are exact rationals. */
module Spectrum {
  import opened Samples

  /** numpy's `fftfreq(n, 1/rate)`: the frequency of each of the n FFT bins in
      the FFT's own order, non-negative for the first (n-1)/2 + 1 bins and
      negative after them. */
  function FftFreq(n: nat, rate: nat): (r: seq<real>)
    requires n > 0 && rate > 0
    ensures |r| == n
    ensures forall i :: 0 <= i <= (n - 1) / 2 ==> r[i] == (i as real) * Resolution(n, rate)
    ensures forall i :: (n - 1) / 2 < i < n ==> r[i] == ((i - n) as real) * Resolution(n, rate)
  {
    seq(n, i => (if i <= (n - 1) / 2 then i else i - n) as real * Resolution(n, rate))
  }

  /** The frequency resolution of an n-point FFT at the given rate: rate/n Hz per bin. */
  function Resolution(n: nat, rate: nat): (q: real)
    requires n > 0 && rate > 0
    ensures q > 0.0
    ensures q * (n as real) == rate as real
  {
    (rate as real) / (n as real)
  }

  /** The first n/2 of those frequencies, the labels of the single-sided spectrum. */
  function FrequencyLabels(n: nat, rate: nat): (r: seq<real>)
    requires n > 0 && rate > 0
    ensures |r| == n / 2
    ensures forall k :: 0 <= k < |r| ==> r[k] == (k as real) * Resolution(n, rate)
  {
    FftFreq(n, rate)[..n / 2]
  }

  /** The kept half of an FFT: the first |bins|/2 bins, in order. */
  function HalfSpectrum<T>(bins: seq<T>): (r: seq<T>)
    ensures |r| == |bins| / 2
    ensures forall k :: 0 <= k < |r| ==> r[k] == bins[k]
  {
    bins[..|bins| / 2]
  }

  /** The ways the per-frame analysis raises: the FFT of an empty chunk, and
      the reciprocal of a zero sample rate. */
  datatype AnalysisError = EmptyChunk | ZeroRate

  /** What one frame hands to the plots, apart from the floating-point FFT and
      spectrogram magnitudes: the waveform, the frequency axis of the spectrum,
      and the sample rate given to the spectrogram. */
  datatype Views = Views(waveform: seq<Int16>, freqs: seq<real>, specgramRate: nat)

  /** The analysis of one chunk at one sample rate. The FFT of the chunk is
      taken before the frequency axis, so an empty chunk is reported first. */
  function Analyse(data: seq<Int16>, rate: nat): (r: Result<Views, AnalysisError>)
    ensures r.Err? <==> |data| == 0 || rate == 0
    ensures |data| == 0 ==> r == Err(EmptyChunk)
    ensures |data| > 0 && rate == 0 ==> r == Err(ZeroRate)
    ensures r.Ok? ==> r.value.waveform == data && r.value.specgramRate == rate
    ensures r.Ok? ==> |r.value.freqs| == |data| / 2
    ensures r.Ok? ==> forall k :: 0 <= k < |r.value.freqs| ==>
              r.value.freqs[k] == (k as real) * Resolution(|data|, rate)
  {
    if |data| == 0 then Err(EmptyChunk)
    else if rate == 0 then Err(ZeroRate)
    else Ok(Views(data, FrequencyLabels(|data|, rate), rate))
  }

  /** The FFT of a chunk has one bin per sample; the bins kept of it pair up
      one to one with the frequency axis of that chunk's analysis. */
  lemma HalfSpectrumPairsWithLabels<T>(data: seq<Int16>, bins: seq<T>, rate: nat)
    requires |bins| == |data| && |data| > 0 && rate > 0
    ensures Analyse(data, rate).Ok?
    ensures |HalfSpectrum(bins)| == |Analyse(data, rate).value.freqs| == |FrequencyLabels(|data|, rate)|
  {
  }

  /** Label k is k * rate / n Hz, the quotient numpy computes as k / (n * (1/rate)). */
  lemma LabelIsRatio(n: nat, rate: nat, k: nat)
    requires n > 0 && rate > 0 && k < n / 2
    ensures FrequencyLabels(n, rate)[k] == (k as real) * (rate as real) / (n as real)
  {
    MulDiv(k as real, rate as real, n as real);
  }

  lemma MulDiv(a: real, r: real, m: real)
    requires m > 0.0
    ensures a * (r / m) == a * r / m
  {
  }

  /** Consecutive labels are one frequency resolution, rate/n, apart. */
  lemma LabelSpacing(n: nat, rate: nat, k: nat)
    requires n > 0 && rate > 0 && k + 1 < n / 2
    ensures FrequencyLabels(n, rate)[k + 1] - FrequencyLabels(n, rate)[k] == Resolution(n, rate)
  {
    var q := Resolution(n, rate);
    assert ((k + 1) as real) * q == (k as real) * q + q;
  }

  /** Every kept label is a non-negative frequency below the Nyquist frequency rate/2. */
  lemma LabelsBelowNyquist(n: nat, rate: nat, k: nat)
    requires n > 0 && rate > 0 && k < n / 2
    ensures 0.0 <= FrequencyLabels(n, rate)[k] < (rate as real) / 2.0
  {
    var q := Resolution(n, rate);
    var x := (k as real) * q;
    assert 2.0 * (k as real) < n as real;
    ScaleBelow(2.0 * (k as real), n as real, q);
    assert 2.0 * x == (2.0 * (k as real)) * q;
    assert 2.0 * x < rate as real;
    ScaleAtMost(0.0, k as real, q);
    assert FrequencyLabels(n, rate)[k] == x;
  }

  /** Any frequency on the kept axis falls in exactly one bin: bin
      floor(f / resolution), which starts at or before f and ends after it. */
  lemma BinCovers(n: nat, rate: nat, f: real)
    requires n > 0 && rate > 0
    requires 0.0 <= f < ((n / 2) as real) * Resolution(n, rate)
    ensures var k := (f / Resolution(n, rate)).Floor;
            0 <= k < n / 2 &&
            FrequencyLabels(n, rate)[k] <= f < FrequencyLabels(n, rate)[k] + Resolution(n, rate)
  {
    var q := Resolution(n, rate);
    var k := (f / q).Floor;
    FloorBin(f, q);
    FloorBelow(f, q, n / 2);
    assert FrequencyLabels(n, rate)[k] == (k as real) * q;
  }

  /** k = floor(f / q) is the index of the interval [k*q, (k+1)*q) that holds f. */
  lemma FloorBin(f: real, q: real)
    requires q > 0.0 && f >= 0.0
    ensures var k := (f / q).Floor;
            k >= 0 && (k as real) * q <= f < (k as real) * q + q
  {
    var x := f / q;
    var k := x.Floor;
    DivMul(f, q);
    ScaleAtMost(k as real, x, q);
    assert x < (k as real) + 1.0;
    ScaleBelow(x, (k as real) + 1.0, q);
    assert x * q < ((k as real) + 1.0) * q;
    assert ((k as real) + 1.0) * q == (k as real) * q + q;
    assert x * q == f;
    assert f < (k as real) * q + q;
  }

  /** A value below b*q lies in an interval of index below b. */
  lemma FloorBelow(f: real, q: real, b: nat)
    requires q > 0.0 && f < (b as real) * q
    ensures (f / q).Floor < b
  {
    DivMul(f, q);
    ScaleBelow(f / q, b as real, q);
  }

  lemma DivMul(f: real, q: real)
    requires q > 0.0
    ensures (f / q) * q == f
  {
  }

  /** Scaling by a positive factor keeps a strict order, in both directions. */
  lemma ScaleBelow(a: real, b: real, q: real)
    requires q > 0.0
    ensures a < b <==> a * q < b * q
  {
  }

  lemma ScaleAtMost(a: real, b: real, q: real)
    requires q > 0.0 && a <= b
    ensures a * q <= b * q
  {
  }

  /** A 1000 Hz tone analysed in 1024-sample chunks at 44100 Hz falls in bin 23,
      and bins 23 and 24 both lie in the 950-1050 Hz band. */
  lemma ToneAt1000Hz()
    ensures |FrequencyLabels(1024, 44100)| == 512
    ensures FrequencyLabels(1024, 44100)[23] <= 1000.0 < FrequencyLabels(1024, 44100)[24]
    ensures 950.0 <= FrequencyLabels(1024, 44100)[23] && FrequencyLabels(1024, 44100)[24] <= 1050.0
  {
    LabelIsRatio(1024, 44100, 23);
    LabelIsRatio(1024, 44100, 24);
  }
}
