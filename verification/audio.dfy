/** Audio items and spectrograms, with the four signal operations whose
    implementations lie outside the modelled core: clipping, resampling, the
    forward transform to a spectrogram, and trimming.  The resampling filter and
    the short-time Fourier transform are parameters; clipping and trimming have
    bodies that follow the stated behaviour of those operations. */
module AudioData {
  import opened Arrays
  import opened Errors

  /** The backing container of an audio item (array-like or tensor-like). It is
      kept only so that the mixer's type check has something to compare. */
  datatype Repr = ArrayRepr | TensorRepr

  /** A mono signal with its sample rate (Hz) and file label. */
  datatype Audio = Audio(sig: seq<real>, sr: nat, fn: string, repr: Repr)

  /** A frequency x time x channel grid with the rate and label of its source. */
  datatype Spectrogram = Spectrogram(data: Array3, sr: nat, fn: string)

  /** The number of samples `seconds` of audio occupy at rate `sr`, rounded to
      the nearest sample (halves round up). */
  function SampleCount(seconds: real, sr: nat): (n: nat)
    requires seconds >= 0.0
    ensures n as real - 0.5 <= seconds * sr as real < n as real + 0.5
  {
    (seconds * sr as real + 0.5).Floor
  }

  /** `n` samples of silence. */
  function Zeros(n: nat): (z: seq<real>)
    ensures |z| == n
    ensures forall k :: 0 <= k < n ==> z[k] == 0.0
  {
    seq(n, _ => 0.0)
  }

  /** Clips the signal to `seconds` of audio at its own rate: the leading
      samples are kept, and a signal that is too short is padded with
      silence. */
  function Clip(a: Audio, seconds: real): (r: Audio)
    requires seconds >= 0.0
    ensures |r.sig| == SampleCount(seconds, a.sr)
    ensures forall k :: 0 <= k < |r.sig| ==> r.sig[k] == (if k < |a.sig| then a.sig[k] else 0.0)
    ensures r.sr == a.sr && r.fn == a.fn && r.repr == a.repr
  {
    var n := SampleCount(seconds, a.sr);
    if n <= |a.sig| then a.(sig := a.sig[..n])
    else a.(sig := a.sig + Zeros(n - |a.sig|))
  }

  /** Clipping to exactly the signal's own duration changes nothing. */
  lemma ClipToOwnDuration(a: Audio, seconds: real)
    requires seconds >= 0.0
    requires seconds * a.sr as real == |a.sig| as real
    ensures Clip(a, seconds) == a
  {
  }

  /** Clipping twice to one duration is clipping once. */
  lemma ClipIdempotent(a: Audio, seconds: real)
    requires seconds >= 0.0
    ensures Clip(Clip(a, seconds), seconds) == Clip(a, seconds)
  {
  }

  /** Resamples to `target`: nothing happens when the rate already matches;
      otherwise `filter(samples, from, to)` computes the new samples and the
      rate becomes `target`. */
  function Resample(a: Audio, target: nat, filter: (seq<real>, nat, nat) -> seq<real>): (r: Audio)
    ensures r.sr == target
    ensures r.fn == a.fn && r.repr == a.repr
    ensures a.sr == target ==> r == a
    ensures a.sr != target ==> r.sig == filter(a.sig, a.sr, target)
  {
    if a.sr == target then a else a.(sig := filter(a.sig, a.sr, target), sr := target)
  }

  /** Resampling twice ends at the second rate, as resampling once to it does. */
  lemma ResampleFinalRate(a: Audio, r1: nat, r2: nat, filter: (seq<real>, nat, nat) -> seq<real>)
    ensures Resample(Resample(a, r1, filter), r2, filter).sr == Resample(a, r2, filter).sr == r2
  {
  }

  /** The forward transform: `stft` maps the samples to a grid, and the
      spectrogram inherits the audio's rate and label. */
  function ToSpec(a: Audio, stft: seq<real> -> Array3): (s: Spectrogram)
    ensures s.sr == a.sr && s.fn == a.fn
    ensures s.data == stft(a.sig)
  {
    Spectrogram(stft(a.sig), a.sr, a.fn)
  }

  /** The extent (frequency, time) of a spectrogram. */
  function Extent(s: Spectrogram): (nat, nat) {
    (s.data.shape.freq, s.data.shape.time)
  }

  /** Trims the frequency and time axes to `target`, keeping the leading
      indices (the retained region is an assumption of this model) and the
      channel axis; a target larger than the current extent on either axis is
      an error. */
  function Trim(s: Spectrogram, target: (nat, nat)): (r: Result<Spectrogram>)
    ensures r.Err? <==> target.0 > Extent(s).0 || target.1 > Extent(s).1
    ensures r.Err? ==> r.error == SpecShapeTooBig
    ensures r.Ok? ==> r.value.data.shape == Shape(target.0, target.1, s.data.shape.chan)
    ensures r.Ok? ==> forall i, j, k :: InShape(r.value.data.shape, i, j, k) ==>
                        InShape(s.data.shape, i, j, k) && At(r.value.data, i, j, k) == At(s.data, i, j, k)
    ensures r.Ok? ==> r.value.sr == s.sr && r.value.fn == s.fn
  {
    if target.0 > Extent(s).0 || target.1 > Extent(s).1 then Err(SpecShapeTooBig)
    else
      var shape := Shape(target.0, target.1, s.data.shape.chan);
      var d := seq(target.0, i requires 0 <= i < target.0 => s.data.cells[i][..target.1]);
      Ok(s.(data := Cells(shape, d)))
  }

  /** Trimming to the current extent changes nothing. */
  lemma TrimToOwnExtent(s: Spectrogram)
    ensures Trim(s, Extent(s)) == Ok(s)
  {
    CellwiseEqual(Trim(s, Extent(s)).value.data, s.data);
  }

  /** Trimming twice to one target is trimming once. */
  lemma TrimIdempotent(s: Spectrogram, target: (nat, nat))
    requires Trim(s, target).Ok?
    ensures Trim(Trim(s, target).value, target) == Trim(s, target)
  {
    TrimToOwnExtent(Trim(s, target).value);
  }
}
