# BirdNET worker: chunking, ranking and lifecycle

A Dafny model of the non-numeric core of the bioacoustics web worker
`workers/birdnet-worker.js`. The worker receives decoded audio from its host,
cuts it into three-second windows, runs the BirdNET classifier on each window,
ranks the resulting probabilities against the label vocabulary, and posts one
result message per window. The model has three modules:

- `Chunker` (`chunker.dfy`) is `chunkAudio`. It is a pure function that builds
  the windows from index arithmetic, `TypedArray.subarray` clamping and the
  zero fill of a fresh `Float32Array`. Its lemmas give the window count (the
  integer ceiling of length over window size), the window length, where each
  sample lands, the zero tail, and the round trip: the windows laid end to end
  are the waveform followed by zeros.
- `Ranker` (`ranker.dfy`) is the `map` / `sort` / `slice(0, 3)` chain. The
  stable sort with comparator `b.confidence - a.confidence` is modelled as an
  insertion sort on positions. The lemmas prove that its output is in rank
  order: higher confidence first, and equal confidences in ascending position.
  They also prove that this order is the only one with that property, so any
  stable sort gives the same output. Further lemmas say which entries are kept
  (exactly those with fewer than three entries ranked ahead of them), that
  nothing left out beats the last kept entry, and that each entry carries the
  label of its own position.
- `Worker` (`worker.dfy`) is the module state `model`, `labels` and
  `isInitialized`, as a class `BirdNetWorker`. The handlers `init` and
  `predict` and the `message` listener are methods on it. Each `postMessage`
  appends to the field `outbox`. `HandlePredict` is the source's `for` loop
  over the chunks. Its loop invariant says the outbox holds the start status
  followed by the first i messages of the specification function
  `ResultEvents`. Its postcondition ties the whole outbox to
  `PredictionEvents`.

The classifier (`model.predict` and the mel-spectrogram layer inside it) is an
opaque total function from a window to a sequence of confidences. Loading the
artifacts (`tf.ready`, `tf.loadLayersModel`, `fetch(...).json()`) is I/O. It
enters `HandleInit` as a parameter: either the loaded classifier and labels,
or `None` when the load was rejected. Samples and confidences are `real`.

Where the worker's intended design and its code differ, the model follows the code:

- A failed `init` posts nothing. The promise rejects before any assignment,
  and the listener does not catch the rejection. It does not post an error
  event.
- A `predict` on audio whose windows are not 144000 samples long stops after
  the start status. This is audio that is not at 48 kHz and is not empty. The
  reshape to `[1, 144000]` throws; so does `chunkAudio` itself when the sample
  rate is 0. No result, no final status and no error are posted. So such a
  request neither completes nor ends with a single error event.
- There is no separate "initialising" state. The worker has one flag, which
  becomes true when both artifacts have been assigned together.
- A ranked result has `min(3, |probabilities|)` entries. When the classifier
  yields one probability per label, that is `min(3, |labels|)`
  (`AlignedResultsNameSpecies`). Positions past the vocabulary get the
  species `Undefined`, which is JavaScript's `undefined`.

## Model

| member | source | states |
|---|---|---|
| `Chunker.ChunkSize` | workers/birdnet-worker.js:119 | a window is three seconds of samples: it is empty exactly when the sample rate is 0, and it is 144000 samples exactly at 48 kHz |
| `Chunker.NumChunks` | workers/birdnet-worker.js:119-120 | the window count is the least n with length <= n*size: n*size covers the length and (n-1)*size does not; it is 0 exactly for empty audio |
| `Chunker.Zeros` | workers/birdnet-worker.js:126 | a fresh buffer of n samples, all zero |
| `Chunker.Subarray` | workers/birdnet-worker.js:127 | `subarray(begin, end)` holds the samples from `begin` up to `end` clamped to the buffer, in order |
| `Chunker.Window` | workers/birdnet-worker.js:122-130 | window i has exactly `size` samples; sample j is the waveform's sample i*size+j while that is inside the waveform and the buffer, and zero after |
| `Chunker.ChunkAudio` | workers/birdnet-worker.js:117-131 | the number of windows is the ceiling of length / (3*sampleRate), zero exactly for empty audio, and every window has length 3*sampleRate |
| `Chunker.ChunkSample` | workers/birdnet-worker.js:122-130 | sample j of window i is the waveform's sample i*size+j while that lies inside the waveform and its buffer, and zero after |
| `Chunker.ChunkHoldsSamples` | workers/birdnet-worker.js:123-127 | every sample below `length` lies in a window that exists, at offset j of window i, where its position is i*size+j |
| `Chunker.TailIsZero` | workers/birdnet-worker.js:124-127 | every window position at or past the waveform's length holds zero |
| `Chunker.WindowsHoldWaveform` | workers/birdnet-worker.js:122-130 | for every window i and offset j, the sample there is the waveform read at i*size+j, or zero outside the waveform and its buffer |
| `Chunker.FlatSample` | workers/birdnet-worker.js:122-130 | laid end to end, sample j of window i sits at position i*size+j and holds the waveform's sample there, or zero at or past `length` |
| `Chunker.FlatPosition` | workers/birdnet-worker.js:120-130 | every position k of the windows laid end to end holds sample k of the waveform below `length`, and zero from there on |
| `Chunker.ChunksRoundTrip` | workers/birdnet-worker.js:120-130 | the windows laid end to end equal the first `length` samples followed by n*size - length zeros |
| `Chunker.ChunksTruncatedRoundTrip` | workers/birdnet-worker.js:120-130 | the windows laid end to end and cut to `length` give back the waveform: chunking loses nothing |
| `Chunker.NineSecondsAt48k` | workers/birdnet-worker.js:117-131 | 432000 samples at 48 kHz give exactly three windows, which together are the waveform with no padding |
| `Chunker.ShortAudioAt48k` | workers/birdnet-worker.js:117-131 | 100000 samples at 48 kHz give one window: the samples followed by 44000 zeros |
| `Ranker.KeptCount` | workers/birdnet-worker.js:152 | `slice(0, 3)` keeps all entries when there are at most three, and three otherwise |
| `Ranker.LabelAt` | workers/birdnet-worker.js:150 | `labels[index]` is the name at that position when the index is inside the vocabulary, and undefined exactly when it is not |
| `Ranker.Ahead` | workers/birdnet-worker.js:151 | the comparator `b.confidence - a.confidence` with the stable tie order: a higher confidence always goes first, a lower one never does, and of two equal confidences the earlier position goes first |
| `Ranker.Insert` | workers/birdnet-worker.js:151 | inserting a later position into a list in rank order gives a list in rank order with the same entries plus the new one |
| `Ranker.SortPositions` | workers/birdnet-worker.js:151 | the sort puts every position of the input in the list exactly once, in rank order: descending confidence, and equal confidences in ascending position |
| `Ranker.RankOrderUnique` | workers/birdnet-worker.js:151 | two lists in rank order that hold the same positions are equal, so a stable descending sort has exactly one outcome |
| `Ranker.TopIsSortedPrefix` | workers/birdnet-worker.js:151-152 | for any list of all positions in rank order, the kept positions are its first min(3, n) entries |
| `Ranker.TopPositions` | workers/birdnet-worker.js:149-152 | min(3, n) positions are kept, in rank order, and each kept one ranks ahead of every position left out |
| `Ranker.KeptIffFewAhead` | workers/birdnet-worker.js:149-152 | a position is kept if and only if fewer than three positions rank ahead of it |
| `Ranker.TopResults` | workers/birdnet-worker.js:149-152 | the result has min(3, n) entries, best first (confidences never increase); entry k carries the confidence and the label of the same kept position; no entry left out has a higher confidence than the last entry kept |
| `Ranker.SmallVocabularyKeepsAll` | workers/birdnet-worker.js:149-152 | with at most three probabilities, every position is kept and every (label, confidence) pair appears in the result |
| `Worker.FitsModel` | workers/birdnet-worker.js:143 | the reshape to `[1, 144000]` can succeed for every chunk exactly when the audio is empty or sampled at 48 kHz |
| `Worker.FitsModelIffChunksFit` | workers/birdnet-worker.js:141-143 | audio fits the classifier if and only if every chunk `chunkAudio` returns has exactly 144000 samples |
| `Worker.ResultEvents` | workers/birdnet-worker.js:142-157 | one `result` message per window, message k carrying chunkIndex k and the ranked classifier output of window k |
| `Worker.PredictionEvents` | workers/birdnet-worker.js:139-159 | for audio that fits the classifier: a start status, then a result for each window in order, then the completion status; otherwise only the start status |
| `Ranker.AlignedTopResults` | workers/birdnet-worker.js:149-152 | with one probability per label, the result has min(3, number of labels) entries and each names a species of the vocabulary |
| `Worker.AlignedResultsNameSpecies` | workers/birdnet-worker.js:142-154 | when the classifier yields one probability per label for every window, every result message has min(3, number of labels) entries and each names a species of the vocabulary |
| `Worker.PredictionPostsNoError` | workers/birdnet-worker.js:139-159 | a request to an initialised worker begins with the start status and posts only statuses and results |
| `Worker.BirdNetWorker.constructor` | workers/birdnet-worker.js:101-103 | the worker starts with no model, no labels, the flag false and nothing posted |
| `Worker.BirdNetWorker.HandleInit` | workers/birdnet-worker.js:105-115 | a successful load assigns both artifacts, sets the flag and posts `ready`; a rejected load changes nothing and posts nothing; the flag is never set without both artifacts |
| `Worker.BirdNetWorker.HandlePredict` | workers/birdnet-worker.js:133-160 | before initialisation exactly one error is posted; after it, the outbox grows by exactly `PredictionEvents`; model, labels and flag never change |
| `Worker.BirdNetWorker.HandleMessage` | workers/birdnet-worker.js:162-168 | `init` runs the init handler, `predict` runs the predict handler with the message's audio, and any other type changes nothing |
| `Worker.RefusedThenServed` | workers/birdnet-worker.js:134-137 | a fresh worker refuses a request with one error, and after `init` the same request is served in full: the refusal leaves the worker usable |

## Left out

- `MelSpecLayerSimple` (workers/birdnet-worker.js:8-99). This is the min/max normalisation, the Hann-windowed STFT, the mel filterbank product, the power and the learned power-law compression. It is floating-point tensor numerics done by TensorFlow.js, and it lives inside the opaque classifier. Its `computeOutputShape` returns `[batch, specShape[0], specShape[1], 1]`, a shape that does not depend on the input's content. The model does not restate it.
- `tf.ready`, `tf.loadLayersModel` and `fetch(...).json()`. These are I/O and foreign calls. Their combined outcome is the `loaded` parameter of `HandleInit` and `HandleMessage`.
- `postMessage` is modelled as an append to `outbox`, so the transport and message cloning are not modelled. `tf.dispose` and the lifetime of tensors are not modelled.
- `predict` is not awaited by the listener (line 166), and the handlers suspend at `await`. Requests that interleave are not modelled: each message is handled to completion before the next.
- Exceptions that end a handler are not modelled as events. A rejected `init` and a `predict` whose chunking or reshape throws stop without posting anything more.
- Float32 arithmetic is not modelled. Samples and confidences are reals, so NaN, -0, infinities and rounding are absent. The ranking comparator is exact real subtraction. `Math.ceil(length / chunkSize)` is taken as the exact integer ceiling, which is what the floating-point quotient gives at realistic audio lengths.
- `Chunker.ChunkAudio`: for a zero sample rate with non-empty audio, the source throws a RangeError. The function excludes that case by its precondition. The predict handler models the throw.
- The unimplemented prediction cache (the TODO at line 147) is not modelled.
