/** The fixed person-of-interest pipeline: load, process, mix, transform,
    trim, derive the mask, convert to tensors.  Loading is file I/O and the
    tensor conversions are the identity on the one container of this model,
    so a run starts from loaded audios and ends with the mask stage's pair. */
module Pipeline {
  import opened Arrays
  import opened Errors
  import opened Collections
  import opened AudioData
  import opened MaskData
  import opened Transforms

  /** The configured parameters of the stages. */
  datatype Config = Config(sr: nat, duration: real, shape: (nat, nat), umbral: real)

  /** The parameters of the repository's pipeline: the processor's defaults
      (22050 Hz, 5 seconds), the trim shape 1024 x 176 and the threshold 0.1. */
  const PoiConfig := Config(22050, 5.0, (1024, 176), 0.1)

  /** The processor applied to every audio. */
  function ProcessAll(c: Config, audios: seq<Audio>): (r: seq<Audio>)
    requires c.duration >= 0.0
    ensures |r| == |audios|
    ensures forall i :: 0 <= i < |audios| ==> r[i] == AudioProcessor(c.sr, c.duration, audios[i])
  {
    seq(|audios|, i requires 0 <= i < |audios| => AudioProcessor(c.sr, c.duration, audios[i]))
  }

  /** The forward transform applied to every audio. */
  function SpectifyAll(audios: seq<Audio>, stft: seq<real> -> Array3): (r: seq<Spectrogram>)
    ensures |r| == |audios|
    ensures forall i :: 0 <= i < |audios| ==> r[i] == ToSpec(audios[i], stft)
  {
    seq(|audios|, i requires 0 <= i < |audios| => ToSpec(audios[i], stft))
  }

  /** The trimmer applied to every spectrogram; it fails if any one fails. */
  function TrimAll(specs: seq<Spectrogram>, shape: (nat, nat)): (r: Result<seq<Spectrogram>>)
    ensures r.Ok? <==> forall i :: 0 <= i < |specs| ==> SpecTrimmer(shape, specs[i]).Ok?
    ensures r.Err? ==> r.error == SpecShapeTooBig
    ensures r.Ok? ==> |r.value| == |specs|
    ensures r.Ok? ==> forall i :: 0 <= i < |specs| ==> SpecTrimmer(shape, specs[i]) == Ok(r.value[i])
  {
    if |specs| == 0 then Ok([])
    else
      var head :- SpecTrimmer(shape, specs[0]);
      var tail :- TrimAll(specs[1..], shape);
      Ok([head] + tail)
  }

  /** One run of the pipeline on loaded audios (the person of interest
      first), with `stft` as the forward transform. */
  function Run(c: Config, audios: seq<Audio>, stft: seq<real> -> Array3): (r: Result<(Spectrogram, Mask)>)
    requires c.duration >= 0.0
    ensures r.Err? ==> r.error != AudioSampleRateMismatch
  {
    ProcessedAgree(c, audios);
    var items :- AudioMixer(ProcessAll(c, audios));
    var trimmed :- TrimAll(SpectifyAll(items, stft), c.shape);
    Ok(MaskifyIBM(trimmed, c.umbral))
  }

  /** After the processor every audio has the configured length and rate, so
      the mixer can only object to an empty input or to mixed
      representations. */
  lemma ProcessedAgree(c: Config, audios: seq<Audio>)
    requires c.duration >= 0.0
    ensures |audios| > 0 ==> SameLengths(ProcessAll(c, audios)) && SameRates(ProcessAll(c, audios))
    ensures SameKinds(ProcessAll(c, audios)) <==> SameKinds(audios)
    ensures Labels(ProcessAll(c, audios)) == Labels(audios)
  {
  }

  /** The errors a run reports: a duration mismatch exactly for an empty
      input, a type mismatch exactly for inputs of mixed representations,
      never a sample-rate mismatch; any other failure is a trim. */
  lemma RunErrors(c: Config, audios: seq<Audio>, stft: seq<real> -> Array3)
    requires c.duration >= 0.0
    ensures Run(c, audios, stft) == Err(AudioDurationMismatch) <==> |audios| == 0
    ensures Run(c, audios, stft) == Err(AudioTypeMismatch) <==> |audios| > 0 && !SameKinds(audios)
    ensures Run(c, audios, stft).Err? && SameKinds(audios) ==> Run(c, audios, stft).error == SpecShapeTooBig
  {
  }

  /** What a successful run returns: the spectrogram of the mixture of the
      processed inputs, trimmed to the configured extent and carrying the
      configured rate and the mixed label, and the binary mask of the first
      input's spectrogram at that extent. */
  lemma RunOutput(c: Config, audios: seq<Audio>, stft: seq<real> -> Array3)
    requires c.duration >= 0.0
    ensures Run(c, audios, stft).Ok? ==>
            var (spec, mask) := Run(c, audios, stft).value;
            && Extent(spec) == c.shape
            && spec.sr == c.sr
            && spec.fn == "mixed audios: " + Join(" with ", Labels(audios))
            && |audios| > 0 && SameLengths(ProcessAll(c, audios))
            && (forall i, j, k :: InShape(spec.data.shape, i, j, k) ==>
                 var mix := stft(MixSignals(ProcessAll(c, audios)));
                 InShape(mix.shape, i, j, k) && At(spec.data, i, j, k) == At(mix, i, j, k))
            && (mask.data.shape.freq, mask.data.shape.time) == c.shape
            && IsBinary(mask.data)
            && forall i, j, k :: InShape(mask.data.shape, i, j, k) ==>
                 var poi := stft(AudioProcessor(c.sr, c.duration, audios[0]).sig);
                 InShape(poi.shape, i, j, k) && (At(mask.data, i, j, k) == 1.0 <==> At(poi, i, j, k) > c.umbral)
  {
    if Run(c, audios, stft).Ok? {
      ProcessedAgree(c, audios);
      RunErrors(c, audios, stft);
      var processed := ProcessAll(c, audios);
      var items := AudioMixer(processed).value;
      var specs := SpectifyAll(items, stft);
      var trimmed := TrimAll(specs, c.shape).value;
      assert items[0] == processed[0];
      assert items[|items| - 1].sig == MixSignals(processed);
      assert SpecTrimmer(c.shape, specs[0]) == Ok(trimmed[0]);
      assert SpecTrimmer(c.shape, specs[|specs| - 1]) == Ok(trimmed[|trimmed| - 1]);
    }
  }

  /** A forward transform that always yields the three channels magnitude,
      real part and imaginary part. */
  ghost predicate ThreeChannels(stft: seq<real> -> Array3) {
    forall x :: stft(x).shape.chan == 3
  }

  /** With a three-channel transform, a successful run yields a mask and a
      spectrogram of one shape, the configured extent by three channels, and
      filtering the spectrogram by the mask zeroes every cell where the mask
      is 0 and keeps every cell where it is 1. */
  lemma RunMaskFilters(c: Config, audios: seq<Audio>, stft: seq<real> -> Array3)
    requires c.duration >= 0.0
    requires ThreeChannels(stft)
    ensures Run(c, audios, stft).Ok? ==>
            var (spec, mask) := Run(c, audios, stft).value;
            && spec.data.shape == Shape(c.shape.0, c.shape.1, 3)
            && MaskShape(mask) == spec.data.shape
            && forall i, j, k :: InShape(spec.data.shape, i, j, k) ==>
                 if At(mask.data, i, j, k) == 0.0 then At(Apply(mask, spec).data, i, j, k) == 0.0
                 else At(Apply(mask, spec).data, i, j, k) == At(spec.data, i, j, k)
  {
  }

  /** `stft` yields at least `extent` frequency bins and time frames for
      every signal of `n` samples. */
  ghost predicate CoversExtent(stft: seq<real> -> Array3, n: nat, extent: (nat, nat)) {
    forall x :: |x| == n ==> stft(x).shape.freq >= extent.0 && stft(x).shape.time >= extent.1
  }

  /** The repository's pipeline on two clips of one container, with a
      three-channel transform that yields at least 1024 x 176 for a 5-second
      clip at 22050 Hz: the run succeeds, both arrays are 1024 x 176 x 3, and
      the masked mixture is 0 wherever the mask of the person-of-interest clip
      is 0. */
  lemma PoiPipelineShape(poi: Audio, other: Audio, stft: seq<real> -> Array3)
    requires poi.repr == other.repr
    requires ThreeChannels(stft)
    requires CoversExtent(stft, SampleCount(5.0, 22050), (1024, 176))
    ensures Run(PoiConfig, [poi, other], stft).Ok?
    ensures var (spec, mask) := Run(PoiConfig, [poi, other], stft).value;
            && spec.data.shape == mask.data.shape == Shape(1024, 176, 3)
            && forall i, j, k :: InShape(spec.data.shape, i, j, k) && At(mask.data, i, j, k) == 0.0 ==>
                 At(Apply(mask, spec).data, i, j, k) == 0.0
  {
    var c := PoiConfig;
    var audios := [poi, other];
    assert SameKinds(audios);
    ProcessedAgree(c, audios);
    var processed := ProcessAll(c, audios);
    var items := AudioMixer(processed).value;
    var specs := SpectifyAll(items, stft);
    forall i | 0 <= i < |specs|
      ensures SpecTrimmer(c.shape, specs[i]).Ok?
    {
      assert |items[i].sig| == SampleCount(5.0, 22050);
      assert specs[i].data == stft(items[i].sig);
    }
    RunMaskFilters(c, audios, stft);
  }
}
