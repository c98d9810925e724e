/** The item-level stages of the separation pipeline: the audio processor, the
    mixer, the spectrogram trimmer and the ideal-binary-mask derivation. */
module Transforms {
  import opened Arrays
  import opened Errors
  import opened Collections
  import opened AudioData
  import opened MaskData

  // ---------------------------------------------------------------- processor

  /** Sets the configured rate, then clips to the configured duration at that
      rate.  The samples are relabelled, not resampled. */
  function AudioProcessor(sr: nat, duration: real, a: Audio): (r: Audio)
    requires duration >= 0.0
    ensures r.sr == sr
    ensures |r.sig| == SampleCount(duration, sr)
    ensures forall k :: 0 <= k < |r.sig| ==> r.sig[k] == (if k < |a.sig| then a.sig[k] else 0.0)
    ensures r.fn == a.fn && r.repr == a.repr
  {
    Clip(a.(sr := sr), duration)
  }

  // -------------------------------------------------------------------- mixer

  function Length(a: Audio): nat { |a.sig| }
  function Rate(a: Audio): nat { a.sr }
  function Kind(a: Audio): Repr { a.repr }

  /** There are audios and all have the first one's length. */
  predicate SameLengths(audios: seq<Audio>) {
    |audios| > 0 && forall i :: 0 <= i < |audios| ==> |audios[i].sig| == |audios[0].sig|
  }

  /** There are audios and all have the first one's sample rate. */
  predicate SameRates(audios: seq<Audio>) {
    |audios| > 0 && forall i :: 0 <= i < |audios| ==> audios[i].sr == audios[0].sr
  }

  /** There are audios and all have the first one's representation. */
  predicate SameKinds(audios: seq<Audio>) {
    |audios| > 0 && forall i :: 0 <= i < |audios| ==> audios[i].repr == audios[0].repr
  }

  /** The `k`-th sample of every audio, in input order. */
  function Column(audios: seq<Audio>, k: nat): (c: seq<real>)
    requires forall i :: 0 <= i < |audios| ==> k < |audios[i].sig|
  {
    seq(|audios|, i requires 0 <= i < |audios| => audios[i].sig[k])
  }

  /** The labels of the audios, in input order. */
  function Labels(audios: seq<Audio>): seq<string> {
    seq(|audios|, i requires 0 <= i < |audios| => audios[i].fn)
  }

  function AddSignals(a: seq<real>, b: seq<real>): (r: seq<real>)
    requires |a| == |b|
    ensures |r| == |a|
  {
    seq(|a|, k requires 0 <= k < |a| => a[k] + b[k])
  }

  /** The running sum of the signals, as summing a list of equal-length
      arrays computes it: the first signal, then each further one added on. */
  function MixSignals(audios: seq<Audio>): (r: seq<real>)
    requires SameLengths(audios)
    ensures |r| == |audios[0].sig|
    decreases |audios|
  {
    if |audios| == 1 then audios[0].sig
    else AddSignals(MixSignals(audios[..|audios| - 1]), audios[|audios| - 1].sig)
  }

  /** Each mixed sample is the sum of the corresponding input samples. */
  lemma {:induction false} MixedSampleIsColumnSum(audios: seq<Audio>)
    requires SameLengths(audios)
    ensures forall k :: 0 <= k < |audios[0].sig| ==> MixSignals(audios)[k] == Sum(Column(audios, k))
    decreases |audios|
  {
    var n := |audios|;
    if n == 1 {
      forall k | 0 <= k < |audios[0].sig|
        ensures MixSignals(audios)[k] == Sum(Column(audios, k))
      {
        assert Column(audios, k)[1..] == [];
      }
    } else {
      var front := audios[..n - 1];
      assert SameLengths(front) by {
        assert forall i :: 0 <= i < |front| ==> front[i] == audios[i];
      }
      MixedSampleIsColumnSum(front);
      forall k | 0 <= k < |audios[0].sig|
        ensures MixSignals(audios)[k] == Sum(Column(audios, k))
      {
        assert Column(audios, k) == Column(front, k) + [audios[n - 1].sig[k]];
        SumAppend(Column(front, k), audios[n - 1].sig[k]);
      }
    }
  }

  /** The mixer.  It rejects inputs whose lengths, then sample rates, then
      representations are not all one value (an empty input has no common
      length), and otherwise returns the inputs followed by their mix. */
  function AudioMixer(audios: seq<Audio>): (r: Result<seq<Audio>>)
    ensures r == Err(AudioDurationMismatch) <==> !SameLengths(audios)
    ensures r == Err(AudioSampleRateMismatch) <==> SameLengths(audios) && !SameRates(audios)
    ensures r == Err(AudioTypeMismatch) <==> SameLengths(audios) && SameRates(audios) && !SameKinds(audios)
    ensures r.Ok? <==> SameLengths(audios) && SameRates(audios) && SameKinds(audios)
    ensures r.Ok? ==> |r.value| == |audios| + 1 && r.value[..|audios|] == audios
    ensures r.Ok? ==>
              var mixed := r.value[|audios|];
              && |mixed.sig| == |audios[0].sig|
              && (forall k :: 0 <= k < |mixed.sig| ==> mixed.sig[k] == Sum(Column(audios, k)))
              && mixed.sr == audios[0].sr
              && mixed.fn == "mixed audios: " + Join(" with ", Labels(audios))
              && mixed.repr == audios[0].repr
  {
    ImageSingletonIffUniform(audios, Length);
    ImageSingletonIffUniform(audios, Rate);
    ImageSingletonIffUniform(audios, Kind);
    if |Image(audios, Length)| != 1 then Err(AudioDurationMismatch)
    else if |Image(audios, Rate)| != 1 then Err(AudioSampleRateMismatch)
    else if |Image(audios, Kind)| != 1 then Err(AudioTypeMismatch)
    else
      MixedSampleIsColumnSum(audios);
      var mixed := Audio(MixSignals(audios), audios[0].sr,
                         "mixed audios: " + Join(" with ", Labels(audios)), audios[0].repr);
      assert (audios + [mixed])[..|audios|] == audios;
      Ok(audios + [mixed])
  }

  /** Inputs that differ in length are reported as a duration mismatch even
      when their rates differ too: length is checked before rate. */
  lemma DurationCheckedFirst(audios: seq<Audio>, i: nat, j: nat)
    requires i < |audios| && j < |audios|
    requires |audios[i].sig| != |audios[j].sig|
    ensures AudioMixer(audios) == Err(AudioDurationMismatch)
  {
  }

  /** Mixing a single audio yields its own signal, rate and representation,
      labelled after it. */
  lemma {:induction false} MixSingle(a: Audio)
    ensures AudioMixer([a]) == Ok([a, Audio(a.sig, a.sr, "mixed audios: " + a.fn, a.repr)])
  {
    assert SameLengths([a]) && SameRates([a]) && SameKinds([a]);
    assert Labels([a]) == [a.fn];
    var r := AudioMixer([a]).value;
    assert r[0] == r[..1][0] == a;
    forall k | 0 <= k < |a.sig|
      ensures r[1].sig[k] == a.sig[k]
    {
      assert Column([a], k) == [a.sig[k]];
      assert Column([a], k)[1..] == [];
    }
    assert r[1].sig == a.sig;
    assert Join(" with ", Labels([a])) == a.fn;
    assert r[1] == Audio(a.sig, a.sr, "mixed audios: " + a.fn, a.repr);
    assert r == [r[0], r[1]];
  }

  /** Mixing two audios of one length, rate and representation adds them
      sample by sample. */
  lemma {:induction false} MixPair(a: Audio, b: Audio)
    requires |a.sig| == |b.sig| && a.sr == b.sr && a.repr == b.repr
    ensures AudioMixer([a, b]).Ok?
    ensures var mixed := AudioMixer([a, b]).value[2];
            |mixed.sig| == |a.sig| && forall k :: 0 <= k < |a.sig| ==> mixed.sig[k] == a.sig[k] + b.sig[k]
    ensures AudioMixer([a, b]).value[2].fn == "mixed audios: " + a.fn + " with " + b.fn
  {
    assert SameLengths([a, b]) && SameRates([a, b]) && SameKinds([a, b]);
    var mixed := AudioMixer([a, b]).value[2];
    forall k | 0 <= k < |a.sig|
      ensures mixed.sig[k] == a.sig[k] + b.sig[k]
    {
      var c := Column([a, b], k);
      assert c == [a.sig[k], b.sig[k]];
      assert c[1..] == [b.sig[k]] && c[1..][1..] == [];
      assert Sum(c[1..]) == b.sig[k] + Sum(c[1..][1..]) == b.sig[k];
    }
    assert Labels([a, b]) == [a.fn] + [b.fn];
    JoinAppend(" with ", [a.fn], b.fn);
  }

  // --------------------------------------------------------------- trimmer

  /** The trimming stage: the spectrogram trimmed to the configured shape, or
      the too-big error. */
  function SpecTrimmer(shape: (nat, nat), spec: Spectrogram): (r: Result<Spectrogram>)
    ensures r.Err? <==> shape.0 > Extent(spec).0 || shape.1 > Extent(spec).1
    ensures r.Err? ==> r.error == SpecShapeTooBig
    ensures r.Ok? ==> Extent(r.value) == shape && r.value.data.shape.chan == spec.data.shape.chan
    ensures r.Ok? ==> r.value.sr == spec.sr && r.value.fn == spec.fn
  {
    Trim(spec, shape)
  }

  // ---------------------------------------------------------- mask derivation

  /** 1 where a cell is strictly above `umbral`, 0 elsewhere, over the whole
      array (the channel axis included). */
  function Threshold(d: Array3, umbral: real): (m: Array3)
    ensures m.shape == d.shape
    ensures IsBinary(m)
    ensures forall i, j, k :: InShape(d.shape, i, j, k) ==> (At(m, i, j, k) == 1.0 <==> At(d, i, j, k) > umbral)
  {
    MapCells(d, x => if x > umbral then 1.0 else 0.0)
  }

  /** The ideal-binary-mask stage: the last spectrogram, paired with the mask
      of the first one's data against `umbral`. */
  function MaskifyIBM(specs: seq<Spectrogram>, umbral: real): (r: (Spectrogram, Mask))
    requires |specs| > 0
    ensures r.0 == specs[|specs| - 1]
    ensures r.1.data.shape == specs[0].data.shape
    ensures IsBinary(r.1.data)
    ensures forall i, j, k :: InShape(specs[0].data.shape, i, j, k) ==>
              (At(r.1.data, i, j, k) == 1.0 <==> At(specs[0].data, i, j, k) > umbral)
  {
    (specs[|specs| - 1], Mask(Threshold(specs[0].data, umbral)))
  }

  /** Magnitudes 0.05, 0.2 and 0.1 against the threshold 0.1 give the mask
      0, 1, 0: a value equal to the threshold is not above it. */
  lemma MaskExample()
    ensures var spec := Spectrogram(Cells(Shape(3, 1, 1), [[[0.05]], [[0.2]], [[0.1]]]), 22050, "poi");
            MaskifyIBM([spec], 0.1).1.data.cells == [[[0.0]], [[1.0]], [[0.0]]]
  {
    var spec := Spectrogram(Cells(Shape(3, 1, 1), [[[0.05]], [[0.2]], [[0.1]]]), 22050, "poi");
    var m := MaskifyIBM([spec], 0.1).1.data;
    var expected: Array3 := Cells(Shape(3, 1, 1), [[[0.0]], [[1.0]], [[0.0]]]);
    assert At(spec.data, 0, 0, 0) == 0.05 && At(spec.data, 1, 0, 0) == 0.2 && At(spec.data, 2, 0, 0) == 0.1;
    CellwiseEqual(m, expected);
  }
}
