/** The chunker of the BirdNET worker (chunkAudio): a decoded waveform is cut
    into windows of three seconds each, every window a fresh zero-filled buffer
    into which the matching slice of the samples is copied. */
module Chunker {

  /** One audio sample; the worker only copies samples and fills with zero. */
  type Sample = real

  /** The fields of an inbound `audioData` object that the chunker reads. */
  datatype AudioData = AudioData(sampleRate: nat, length: nat, channelData: seq<Sample>)

  /** Seconds of audio in one window. */
  const WindowSeconds: nat := 3

  /** Samples in one window: three seconds at the waveform's sample rate. */
  function ChunkSize(sampleRate: nat): (size: nat)
    ensures size == 0 <==> sampleRate == 0
    ensures size == 144000 <==> sampleRate == 48000
  {
    WindowSeconds * sampleRate
  }

  function Min(a: int, b: int): int {
    if a <= b then a else b
  }

  /** Math.ceil(length / size): the fewest windows of `size` samples that cover
      `length` samples. A zero size is only reached with zero length, where the
      quotient is NaN and the array built from it is empty. */
  function NumChunks(length: nat, size: nat): (n: nat)
    requires size > 0 || length == 0
    ensures length <= n * size
    ensures n > 0 ==> (n - 1) * size < length
    ensures n == 0 <==> length == 0
  {
    if size == 0 then 0
    else
      var q := (length + size - 1) / size;
      var r := (length + size - 1) % size;
      assert length + size - 1 == q * size + r && 0 <= r < size;
      assert (q - 1) * size == q * size - size;
      q
  }

  /** A run of `n` zero samples, as in a freshly allocated Float32Array. */
  function Zeros(n: nat): (z: seq<Sample>)
    ensures |z| == n
    ensures forall k :: 0 <= k < n ==> z[k] == 0.0
  {
    seq(n, _ => 0.0)
  }

  /** TypedArray.prototype.subarray(begin, end): the samples at positions from
      `begin` up to `end`, both bounds clamped to the buffer. */
  function Subarray(data: seq<Sample>, begin: nat, end: nat): (s: seq<Sample>)
    ensures |s| == if begin < Min(end, |data|) then Min(end, |data|) - begin else 0
    ensures forall k :: 0 <= k < |s| ==> s[k] == data[begin + k]
  {
    var b := Min(begin, |data|);
    var e := Min(end, |data|);
    if b < e then data[b..e] else []
  }

  /** Window `i` of `audio`: a buffer of `size` zeros with the samples from
      i*size up to min((i+1)*size, length) copied to its front. */
  function Window(audio: AudioData, size: nat, i: nat): (w: seq<Sample>)
    ensures |w| == size
    ensures forall j :: 0 <= j < size ==>
      w[j] == if i * size + j < Min(audio.length, |audio.channelData|)
              then audio.channelData[i * size + j] else 0.0
  {
    var start := i * size;
    assert (i + 1) * size == start + size;
    var end := Min((i + 1) * size, audio.length);
    var copied := Subarray(audio.channelData, start, end);
    copied + Zeros(size - |copied|)
  }

  /** chunkAudio: the windows of the waveform, in order. The function fails
      (a RangeError in the worker) when the sample rate is zero and there are
      samples, so that case is excluded. */
  function ChunkAudio(audio: AudioData): (chunks: seq<seq<Sample>>)
    requires audio.sampleRate > 0 || audio.length == 0
    ensures audio.length <= |chunks| * ChunkSize(audio.sampleRate)
    ensures |chunks| > 0 ==> (|chunks| - 1) * ChunkSize(audio.sampleRate) < audio.length
    ensures |chunks| == 0 <==> audio.length == 0
    ensures forall i :: 0 <= i < |chunks| ==> |chunks[i]| == ChunkSize(audio.sampleRate)
  {
    var size := ChunkSize(audio.sampleRate);
    var n := NumChunks(audio.length, size);
    var chunks := seq(n, i requires 0 <= i < n => Window(audio, size, i));
    assert |chunks| == n;
    chunks
  }

  /** The windows laid end to end. */
  function Concat(chunks: seq<seq<Sample>>): seq<Sample> {
    if chunks == [] then [] else chunks[0] + Concat(chunks[1..])
  }

  lemma ConcatLength(chunks: seq<seq<Sample>>, size: nat)
    requires forall i :: 0 <= i < |chunks| ==> |chunks[i]| == size
    ensures |Concat(chunks)| == |chunks| * size
  {
    if chunks != [] {
      ConcatLength(chunks[1..], size);
      assert |chunks| * size == size + (|chunks| - 1) * size;
    }
  }

  /** Laid end to end, windows of equal size place sample j of window i at
      position i*size + j. */
  lemma {:induction false} ConcatAt(chunks: seq<seq<Sample>>, size: nat, i: nat, j: nat)
    requires forall k :: 0 <= k < |chunks| ==> |chunks[k]| == size
    requires i < |chunks| && j < size
    ensures i * size + j < |Concat(chunks)|
    ensures Concat(chunks)[i * size + j] == chunks[i][j]
  {
    ConcatLength(chunks, size);
    if i > 0 {
      ConcatAt(chunks[1..], size, i - 1, j);
      SkipWindow(i, size, j);
    }
  }

  lemma SkipWindow(i: nat, size: nat, j: nat)
    requires i > 0
    ensures i * size + j == size + ((i - 1) * size + j)
  {
  }

  /** Position k splits into window k / size and offset k % size. */
  lemma SplitPosition(k: nat, size: nat, n: nat)
    requires size > 0 && k < n * size
    ensures k == (k / size) * size + k % size
    ensures k / size < n && k % size < size
  {
  }

  lemma FewerWindows(i: nat, n: nat, size: nat)
    requires i * size < n * size
    ensures i < n
  {
  }

  /** Sample j of window i: the waveform's sample at i*size + j while that is
      inside the waveform and its buffer, zero after. */
  lemma ChunkSample(audio: AudioData, i: nat, j: nat)
    requires audio.sampleRate > 0 || audio.length == 0
    requires i < |ChunkAudio(audio)| && j < ChunkSize(audio.sampleRate)
    ensures var size := ChunkSize(audio.sampleRate);
      ChunkAudio(audio)[i][j] ==
        if i * size + j < Min(audio.length, |audio.channelData|)
        then audio.channelData[i * size + j] else 0.0
  {
    var size := ChunkSize(audio.sampleRate);
    assert ChunkAudio(audio)[i] == Window(audio, size, i);
  }

  /** Every sample of the waveform lands at its own position in its window. */
  lemma ChunkHoldsSamples(audio: AudioData, i: nat, j: nat)
    requires audio.sampleRate > 0
    requires audio.length <= |audio.channelData|
    requires j < ChunkSize(audio.sampleRate)
    requires i * ChunkSize(audio.sampleRate) + j < audio.length
    ensures i < |ChunkAudio(audio)|
    ensures ChunkAudio(audio)[i][j] == audio.channelData[i * ChunkSize(audio.sampleRate) + j]
  {
    FewerWindows(i, |ChunkAudio(audio)|, ChunkSize(audio.sampleRate));
    ChunkSample(audio, i, j);
  }

  /** Past the end of the waveform a window holds only zeros. */
  lemma TailIsZero(audio: AudioData, i: nat, j: nat)
    requires audio.sampleRate > 0 || audio.length == 0
    requires i < |ChunkAudio(audio)|
    requires j < ChunkSize(audio.sampleRate)
    requires audio.length <= i * ChunkSize(audio.sampleRate) + j
    ensures ChunkAudio(audio)[i][j] == 0.0
  {
    ChunkSample(audio, i, j);
  }

  /** Chunking loses nothing: the windows laid end to end are the waveform
      followed by the zero padding of the last window. */
  lemma {:induction false} ChunksRoundTrip(audio: AudioData)
    requires audio.sampleRate > 0 || audio.length == 0
    requires audio.length <= |audio.channelData|
    ensures var chunks := ChunkAudio(audio);
      Concat(chunks) == audio.channelData[..audio.length]
        + Zeros(|chunks| * ChunkSize(audio.sampleRate) - audio.length)
  {
    var chunks := ChunkAudio(audio);
    var size := ChunkSize(audio.sampleRate);
    var whole := audio.channelData[..audio.length] + Zeros(|chunks| * size - audio.length);
    ConcatLength(chunks, size);
    var flat := Concat(chunks);
    assert |flat| == |whole|;
    forall k | 0 <= k < |flat| ensures flat[k] == whole[k] {
      FlatPosition(audio, k);
    }
  }

  /** Sample j of window i, laid end to end with the others, holds the
      waveform's sample at that position, or zero past the waveform's end. */
  lemma FlatSample(audio: AudioData, i: nat, j: nat)
    requires audio.sampleRate > 0 || audio.length == 0
    requires audio.length <= |audio.channelData|
    requires i < |ChunkAudio(audio)| && j < ChunkSize(audio.sampleRate)
    ensures var k := i * ChunkSize(audio.sampleRate) + j;
      k < |Concat(ChunkAudio(audio))| &&
      Concat(ChunkAudio(audio))[k] == if k < audio.length then audio.channelData[k] else 0.0
  {
    var chunks := ChunkAudio(audio);
    var size := ChunkSize(audio.sampleRate);
    ConcatAt(chunks, size, i, j);
    ChunkSample(audio, i, j);
  }

  /** Position k of the windows laid end to end holds sample k of the
      waveform, or zero past the waveform's end. */
  lemma FlatPosition(audio: AudioData, k: nat)
    requires audio.sampleRate > 0 || audio.length == 0
    requires audio.length <= |audio.channelData|
    requires k < |Concat(ChunkAudio(audio))|
    ensures Concat(ChunkAudio(audio))[k] == if k < audio.length then audio.channelData[k] else 0.0
  {
    WindowsHoldWaveform(audio);
    ConcatOfWindows(ChunkAudio(audio), ChunkSize(audio.sampleRate), (p: nat) => Padded(audio, p), k);
  }

  /** The waveform read at position p, with zero from `length` on. */
  function Padded(audio: AudioData, p: nat): Sample {
    if p < Min(audio.length, |audio.channelData|) then audio.channelData[p] else 0.0
  }

  lemma WindowsHoldWaveform(audio: AudioData)
    requires audio.sampleRate > 0 || audio.length == 0
    ensures forall i, j :: 0 <= i < |ChunkAudio(audio)| && 0 <= j < ChunkSize(audio.sampleRate) ==>
      ChunkAudio(audio)[i][j] == Padded(audio, i * ChunkSize(audio.sampleRate) + j)
  {
    forall i, j | 0 <= i < |ChunkAudio(audio)| && 0 <= j < ChunkSize(audio.sampleRate)
      ensures ChunkAudio(audio)[i][j] == Padded(audio, i * ChunkSize(audio.sampleRate) + j)
    {
      ChunkSample(audio, i, j);
    }
  }

  /** Windows of equal size whose sample j of window i is f(i*size + j),
      laid end to end, hold f(k) at every position k. */
  lemma ConcatOfWindows(chunks: seq<seq<Sample>>, size: nat, f: nat -> Sample, k: nat)
    requires forall i :: 0 <= i < |chunks| ==> |chunks[i]| == size
    requires forall i, j :: 0 <= i < |chunks| && 0 <= j < size ==> chunks[i][j] == f(i * size + j)
    requires k < |Concat(chunks)|
    ensures Concat(chunks)[k] == f(k)
  {
    ConcatPosition(chunks, size, k);
    var i, j := k / size, k % size;
    assert chunks[i][j] == f(i * size + j);
  }

  /** Laid end to end, windows of equal size hold at position k sample
      k % size of window k / size. */
  lemma ConcatPosition(chunks: seq<seq<Sample>>, size: nat, k: nat)
    requires forall i :: 0 <= i < |chunks| ==> |chunks[i]| == size
    requires k < |Concat(chunks)|
    ensures size > 0 && k / size < |chunks| && k % size < size
    ensures k == (k / size) * size + k % size
    ensures Concat(chunks)[k] == chunks[k / size][k % size]
  {
    ConcatLength(chunks, size);
    SplitPosition(k, size, |chunks|);
    ConcatAt(chunks, size, k / size, k % size);
  }

  /** Truncated to the waveform's length, the windows give back the waveform. */
  lemma ChunksTruncatedRoundTrip(audio: AudioData)
    requires audio.sampleRate > 0 || audio.length == 0
    requires audio.length <= |audio.channelData|
    ensures audio.length <= |Concat(ChunkAudio(audio))|
    ensures Concat(ChunkAudio(audio))[..audio.length] == audio.channelData[..audio.length]
  {
    ChunksRoundTrip(audio);
  }

  /** 48 kHz audio of nine seconds: exactly three full windows, none padded. */
  lemma NineSecondsAt48k(data: seq<Sample>)
    requires |data| == 432000
    ensures var chunks := ChunkAudio(AudioData(48000, 432000, data));
      |chunks| == 3 && Concat(chunks) == data
  {
    ChunksRoundTrip(AudioData(48000, 432000, data));
  }

  /** 100000 samples at 48 kHz: one window whose last 44000 samples are zero. */
  lemma ShortAudioAt48k(data: seq<Sample>)
    requires |data| == 100000
    ensures var chunks := ChunkAudio(AudioData(48000, 100000, data));
      |chunks| == 1 && chunks[0] == data + Zeros(44000)
  {
    var chunks := ChunkAudio(AudioData(48000, 100000, data));
    ChunksRoundTrip(AudioData(48000, 100000, data));
    assert Concat(chunks) == chunks[0] + Concat([]);
  }
}
