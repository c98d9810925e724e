# Audio separation transforms — a Dafny model

This project models the item-level transforms of a person-of-interest audio
separation pipeline and the mask rule that filters its spectrograms.  Audio
items (a mono signal, its sample rate, its file label and its backing
container) pass through a processor that fixes their rate and duration; a
mixer checks that they agree in length, then rate, then container, and appends
their sample-wise sum; every item is turned into a spectrogram (a frequency x
time x channel array) and trimmed to a fixed extent; finally the first
spectrogram is thresholded into a 0/1 mask that is paired with the last
spectrogram (the mixture).  A mask filters a spectrogram by cell-wise
multiplication.

All values are immutable: a stage that the source writes as "mutate and
return the same object" is a function returning the updated value, so inputs
are never modified and every result is fresh.  Errors are the constructors of
`Errors.PipelineError` (one per exception class of `src/utils/errors.py`),
returned in `Errors.Result` instead of raised.

Files and modules:

- `errors.dfy` — `Errors`: the four error kinds and `Result`.
- `arrays.dfy` — `Arrays`: the one numeric container, a three-axis array that
  carries its shape (the array/tensor duality of the source is collapsed).
- `collections.dfy` — `Collections`: the set of values a sequence takes (the
  mixer's agreement test), sums and separator joins.
- `audio.dfy` — `AudioData`: audio items, spectrograms, clipping, resampling,
  the forward transform and trimming.
- `mask.dfy` — `MaskData`: masks, their shape and the mask x spectrogram rule.
- `transforms.dfy` — `Transforms`: processor, mixer, trimmer, mask derivation.
- `pipeline.dfy` — `Pipeline`: the fixed stage order and its end-to-end
  properties.

The short-time Fourier transform and the resampling filter are parameters
(`stft`, `filter`): their numerics are not part of the model.  Clipping and
trimming have bodies that follow their documented behaviour; in particular,
trimming keeps the leading frequency and time indices, which is an assumption
(the source states only the target extent and the too-big error).  Clipping
is assumed to pad with silence or truncate to `round(seconds * rate)`
samples (the source states only "clip to the specified time").

Where the code departs from what the system is described as doing elsewhere,
the model follows the code:

- the mask is computed over the whole first spectrogram, the channel axis
  included, not over its magnitude channel alone, and it has the full
  three-axis shape (no broadcasting);
- the mask stage returns the last (mixed) spectrogram and the mask of the
  first (person-of-interest) one, not a masked and a target spectrogram;
- the processor assigns the configured sample rate without resampling, then
  clips at that rate;
- mask x spectrogram does not check shapes; equal shapes are a precondition.

In `MaskData.Apply` the source passes the spectrogram's data to the
multiplication rule, which reads `.data` of it again
(`src/data/mask.py:24` against `src/data/mask.py:28`); the model takes the
evident intent, the cell-wise product of mask data and spectrogram data.

## Model

| member | source | states |
|---|---|---|
| Transforms.AudioMixer | src/pipeline/transforms.py:84-96 | a duration-mismatch error exactly when the inputs are empty or differ in length; a rate-mismatch error exactly when lengths agree and rates differ; a type-mismatch error exactly when lengths and rates agree and containers differ; otherwise the inputs unchanged and in order followed by one mixed item whose samples are the column sums of the inputs, whose rate and container are the first input's and whose label is "mixed audios: " followed by the labels joined with " with " |
| Collections.ImageSingletonIffUniform | src/pipeline/transforms.py:86-91 | the set of values taken over the inputs has size 1 exactly when there is at least one input and all agree with the first, so an empty input fails the length check |
| Transforms.MixedSampleIsColumnSum | src/pipeline/transforms.py:93 | the running sum of the signals equals, sample by sample, the sum of that sample over all inputs |
| Transforms.DurationCheckedFirst | src/pipeline/transforms.py:86-89 | inputs with two different lengths report the duration error whatever their rates |
| Transforms.MixSingle | src/pipeline/transforms.py:93-96 | mixing one item returns it followed by an item with its own signal, rate and container labelled "mixed audios: " plus its label |
| Transforms.MixPair | src/pipeline/transforms.py:93-96 | two compatible items mix into their sample-wise sum labelled "mixed audios: a with b" |
| Collections.JoinAppend | src/pipeline/transforms.py:94 | joining one more label appends the separator and that label |
| Transforms.AudioProcessor | src/pipeline/transforms.py:74-78 | the result has the configured rate, round(duration x rate) samples, the input's leading samples followed by silence, and the input's label and container |
| Pipeline.ProcessedAgree | src/pipeline/transforms.py:74-78 | after processing, a non-empty input has one common length and one common rate, keeps its labels, and has one container exactly when the input did |
| Transforms.SpecTrimmer | src/pipeline/transforms.py:104-107 | the too-big error exactly when the target exceeds the extent on either axis; otherwise a spectrogram of the target extent, the same channel count, rate and label |
| Transforms.Threshold | src/pipeline/transforms.py:63 | same shape as the data, every cell 0 or 1, and 1 exactly where the data is strictly above the threshold |
| Transforms.MaskifyIBM | src/pipeline/transforms.py:61-64 | the pair of the last spectrogram and a 0/1 mask shaped like the first spectrogram's data, 1 exactly where that data is strictly above the threshold |
| Transforms.MaskExample | src/pipeline/transforms.py:63 | magnitudes 0.05, 0.2, 0.1 against 0.1 give the mask 0, 1, 0 |
| MaskData.MaskShape | src/data/mask.py:17-20 | the reported shape is the shape of the mask's data, axis by axis, and its cells fill exactly those extents |
| MaskData.Mult | src/data/mask.py:22-24 | the result has the spectrogram data's shape and each cell is mask cell times data cell |
| MaskData.Apply | src/data/mask.py:26-29 | a spectrogram of the same shape holding the cell-wise product, with the input spectrogram's rate and label |
| MaskData.ApplyReflected | src/data/mask.py:31-33 | spectrogram times mask yields a spectrogram of the same shape whose every cell is spectrogram cell times mask cell, with the spectrogram's rate and label |
| MaskData.ProductCommutes | src/data/mask.py:22-33 | the filtered data equals the spectrogram's data used as a mask on the mask's data |
| MaskData.BinaryMaskGates | src/data/mask.py:22-29 | with a 0/1 mask a filtered cell is 0 where the mask is 0 and the spectrogram's cell where it is 1 |
| AudioData.SampleCount | src/data/audio.py:30-32 | the sample count is within half a sample of duration x rate |
| AudioData.Clip | src/data/audio.py:30-32 | the clipped signal has the rounded sample count for the duration, keeps the leading samples, pads with silence, and keeps rate, label and container |
| AudioData.ClipToOwnDuration | src/data/audio.py:30-32 | clipping to exactly the current duration changes nothing |
| AudioData.ClipIdempotent | src/data/audio.py:30-32 | clipping twice to one duration equals clipping once |
| AudioData.Resample | src/data/audio.py:26-28 | the result has the target rate and the same label and container; a matching rate is a no-op, otherwise the filter gives the samples |
| AudioData.ResampleFinalRate | src/data/audio.py:26-28 | resampling twice ends at the second rate, as resampling once to it does |
| AudioData.ToSpec | src/data/audio.py:21-23 | the spectrogram holds the transform of the samples and inherits the rate and label |
| AudioData.Trim | src/data/audio.py:53-55 | the too-big error exactly when the target exceeds the current extent; otherwise the target extent with the channel axis kept, each cell the input's cell at the same index, rate and label kept |
| AudioData.TrimToOwnExtent | src/data/audio.py:53-55 | trimming to the current extent returns the spectrogram unchanged |
| AudioData.TrimIdempotent | src/data/audio.py:53-55 | trimming twice to one target equals trimming once |
| Pipeline.ProcessAll | src/pipeline/transforms.py:120 | the processor is applied to every item, order and count kept |
| Pipeline.SpectifyAll | src/pipeline/transforms.py:122 | the forward transform is applied to every item, order and count kept |
| Pipeline.TrimAll | src/pipeline/transforms.py:123 | succeeds exactly when every spectrogram can be trimmed, then holds each trimmed spectrogram in order; otherwise the too-big error |
| Pipeline.Run | src/pipeline/transforms.py:118-127 | a run of the fixed stage order never reports a sample-rate mismatch |
| Pipeline.RunErrors | src/pipeline/transforms.py:118-127 | a run reports a duration mismatch exactly for an empty input, a type mismatch exactly for mixed containers, and otherwise fails only by trimming |
| Pipeline.RunOutput | src/pipeline/transforms.py:118-127 | a successful run has a non-empty input and gives a spectrogram at the configured extent, rate and mixed label whose every cell is the transform of the mixed processed signal at that index, and a 0/1 mask at that extent that is 1 exactly where the first processed item's transform exceeds the threshold |
| Pipeline.RunMaskFilters | src/pipeline/transforms.py:118-127 | with a three-channel transform, mask and spectrogram share the shape (extent x 3), and filtering zeroes the cells where the mask is 0 and keeps those where it is 1 |
| Pipeline.PoiPipelineShape | src/pipeline/transforms.py:118-127 | the repository's pipeline (22050 Hz, 5 s, 1024 x 176, threshold 0.1) on two clips of one container, with a three-channel transform that yields at least 1024 x 176 for a 5-second clip, succeeds and yields 1024 x 176 x 3 arrays, the masked mixture 0 wherever the mask is 0 |

## Left out

- Loading audio files (`from_file`): file I/O and decoding; a run starts from loaded audio items.
- The short-time Fourier transform and its inverse (`to_spec`, `to_audio`): numerical library code; the forward transform is the parameter `stft`, the inverse is not modelled.
- Resampling numerics: the polyphase filter is the parameter `filter`.
- `Tensorify`, `ToTensor` and the `decodes` directions of the stages: container conversions, the identity once arrays and tensors are one container.
- `DebugPrinter`, `show`, `listen`: console, plotting and playback.
- File discovery and random pairing of clips, and the learner configuration: file-system access, randomness and framework glue outside the transform core.
- Floating point: samples and thresholds are exact reals.
- Spectrograms and masks carry no array/tensor tag; only audio items do, because only the mixer compares containers.
- `MaskifyIBM` on an empty tuple: the source fails with an index error; here a non-empty input is a precondition.
- AudioData.SampleCount: rounds halves up, whereas a round-half-to-even convention would differ on exact ties; the source's clipping body is not part of this model.
- AudioData.Trim: which indices are kept (the leading ones) is an assumption, since the source's trimming body is not part of this model.
- AudioData.Clip: the source's clipping body is not part of this model; its behaviour is assumed: truncate, or pad with silence, to the rounded sample count.
