/** The BirdNET worker's lifecycle: the module globals `model`, `labels` and
    `isInitialized`, the `init` and `predict` handlers, and the dispatcher of
    inbound messages. Every `postMessage` is an append to an outbox. */
module Worker {
  import opened Chunker
  import opened Ranker

  datatype Option<T> = None | Some(value: T)

  /** The loaded classifier as the worker uses it: a chunk in, one probability
      per label out (the spectrogram layer and the network are inside it). */
  type Classifier = seq<Sample> -> seq<Confidence>

  /** What a successful `init` loads: the classifier and the label vocabulary. */
  datatype Artifacts = Artifacts(model: Classifier, labels: seq<Label>)

  /** Messages the worker posts to its host. */
  datatype Event =
    | Ready
    | Status(message: string)
    | Result(chunkIndex: nat, results: seq<Prediction>)
    | Error(message: string)

  /** Messages the host posts to the worker, by their `type` field. */
  datatype Request = Init | Predict(audioData: AudioData) | Other(kind: string)

  const NotInitializedMessage: string := "Model not initialized. Please wait for initialization to complete."
  const StartedMessage: string := "Running predictions..."
  const CompletedMessage: string := "All predictions complete!"

  /** The classifier's input tensor has the fixed shape [1, 144000]. */
  const ModelInputLength: nat := 144000

  /** Every chunk of `audio` can be reshaped to the classifier's input: there
      are no chunks, or each is 144000 samples long (48 kHz audio). */
  predicate FitsModel(audio: AudioData): (fits: bool)
    ensures fits <==> audio.length == 0 || audio.sampleRate == 48000
  {
    audio.length == 0 || ChunkSize(audio.sampleRate) == ModelInputLength
  }

  /** Audio fits the classifier exactly when every one of its chunks can be
      reshaped to the input tensor. */
  lemma FitsModelIffChunksFit(audio: AudioData)
    requires audio.sampleRate > 0 || audio.length == 0
    ensures FitsModel(audio) <==>
      forall k :: 0 <= k < |ChunkAudio(audio)| ==> |ChunkAudio(audio)[k]| == ModelInputLength
  {
    var chunks := ChunkAudio(audio);
    assert chunks != [] ==> |chunks[0]| == ChunkSize(audio.sampleRate);
  }

  /** The `result` messages for `chunks`, one per chunk in chunk order. */
  function ResultEvents(chunks: seq<seq<Sample>>, art: Artifacts): (events: seq<Event>)
    ensures |events| == |chunks|
    ensures forall k :: 0 <= k < |events| ==> events[k].Result? && events[k].chunkIndex == k
    ensures forall k :: 0 <= k < |events| ==>
      events[k].results == TopResults(art.model(chunks[k]), art.labels)
  {
    seq(|chunks|, k requires 0 <= k < |chunks| => Result(k, TopResults(art.model(chunks[k]), art.labels)))
  }

  /** Everything an initialised worker posts for one `predict` request. Audio
      that does not fit the classifier makes the handler throw once the start
      status is out: at chunkAudio when the sample rate is zero, at the
      reshape of the first chunk otherwise. */
  function PredictionEvents(audio: AudioData, art: Artifacts): (events: seq<Event>)
    ensures FitsModel(audio) ==>
      |events| == |ChunkAudio(audio)| + 2 &&
      events[0] == Status(StartedMessage) &&
      events[|events| - 1] == Status(CompletedMessage) &&
      events[1..|events| - 1] == ResultEvents(ChunkAudio(audio), art)
    ensures !FitsModel(audio) ==> events == [Status(StartedMessage)]
  {
    if FitsModel(audio) then
      [Status(StartedMessage)] + ResultEvents(ChunkAudio(audio), art) + [Status(CompletedMessage)]
    else
      [Status(StartedMessage)]
  }

  /** A classifier that yields one probability per label. */
  ghost predicate AlignedWith(model: Classifier, labels: seq<Label>) {
    forall chunk :: |model(chunk)| == |labels|
  }

  /** With a classifier aligned to its vocabulary, every result message
      holds min(3, |labels|) entries and each names a species. */
  lemma AlignedResultsNameSpecies(chunks: seq<seq<Sample>>, art: Artifacts)
    requires AlignedWith(art.model, art.labels)
    ensures forall k :: 0 <= k < |chunks| ==>
      var results := ResultEvents(chunks, art)[k].results;
      |results| == KeptCount(|art.labels|) &&
      forall p :: p in results ==> p.species.Species? && p.species.name in art.labels
  {
    forall k | 0 <= k < |chunks|
      ensures var results := ResultEvents(chunks, art)[k].results;
        |results| == KeptCount(|art.labels|) &&
        forall p :: p in results ==> p.species.Species? && p.species.name in art.labels
    {
      AlignedTopResults(art.model(chunks[k]), art.labels);
    }
  }

  /** A request to an initialised worker never posts an error or a second
      `ready`: it completes, or stops after its start status. */
  lemma PredictionPostsNoError(audio: AudioData, art: Artifacts)
    ensures var events := PredictionEvents(audio, art);
      events[0] == Status(StartedMessage) &&
      forall e :: e in events ==> e.Status? || e.Result?
  {
  }

  /** Appending the next element of `s` extends the prefix of `s` by one;
      the loop of `HandlePredict` keeps its invariant with it. */
  lemma AppendNext<T>(prefix: seq<T>, s: seq<T>, i: nat)
    requires i < |s|
    ensures prefix + s[..i] + [s[i]] == prefix + s[..i + 1]
  {
    assert s[..i + 1] == s[..i] + [s[i]];
  }

  /** Regrouping a four-part concatenation, used where `HandlePredict`
      posts its final status after the start status and the results. */
  lemma Regroup<T>(a: seq<T>, b: seq<T>, c: seq<T>, d: seq<T>)
    ensures a + b + c + d == a + (b + c + d)
  {
  }

  class BirdNetWorker {
    /** The loaded classifier; `undefined` until `init` completes. */
    var model: Option<Classifier>
    /** The label vocabulary; `undefined` until `init` completes. */
    var labels: Option<seq<Label>>
    var isInitialized: bool
    /** Every message posted so far, oldest first. */
    var outbox: seq<Event>

    /** The worker counts as initialised only with both artifacts in place. */
    ghost predicate Valid()
      reads this`isInitialized, this`model, this`labels
    {
      isInitialized ==> model.Some? && labels.Some?
    }

    /** The artifacts in use once initialised. */
    function Loaded(): (art: Artifacts)
      reads this`isInitialized, this`model, this`labels
      requires Valid() && isInitialized
      ensures Some(art.model) == model && Some(art.labels) == labels
    {
      Artifacts(model.value, labels.value)
    }

    /** The worker as the script loads it. */
    constructor ()
      ensures Valid()
      ensures model == None && labels == None && !isInitialized && outbox == []
    {
      model := None;
      labels := None;
      isInitialized := false;
      outbox := [];
    }

    /** `init`: `loaded` is the outcome of loading both artifacts together;
        `None` stands for a rejected load, after which nothing is assigned
        and nothing is posted. */
    method HandleInit(loaded: Option<Artifacts>)
      requires Valid()
      modifies this
      ensures Valid()
      ensures loaded.Some? ==>
        model == Some(loaded.value.model) && labels == Some(loaded.value.labels) &&
        isInitialized && outbox == old(outbox) + [Ready]
      ensures loaded.None? ==>
        model == old(model) && labels == old(labels) &&
        isInitialized == old(isInitialized) && outbox == old(outbox)
    {
      if loaded.Some? {
        model, labels := Some(loaded.value.model), Some(loaded.value.labels);
        isInitialized := true;
        outbox := outbox + [Ready];
      }
    }

    /** `predict`: refused with one error before initialisation; otherwise
        the start status, one ranked result per chunk and the final status.
        Only the outbox changes. */
    method HandlePredict(audio: AudioData)
      requires Valid()
      modifies this`outbox
      ensures Valid()
      ensures !isInitialized ==> outbox == old(outbox) + [Error(NotInitializedMessage)]
      ensures isInitialized ==> outbox == old(outbox) + PredictionEvents(audio, Loaded())
    {
      if !isInitialized {
        outbox := outbox + [Error(NotInitializedMessage)];
        return;
      }
      ghost var art := Loaded();
      outbox := outbox + [Status(StartedMessage)];
      ghost var started := outbox;
      if audio.sampleRate == 0 && audio.length > 0 {
        // chunkAudio throws a RangeError: the array length is infinite
        assert !FitsModel(audio) && PredictionEvents(audio, art) == [Status(StartedMessage)];
        return;
      }
      var chunks := ChunkAudio(audio);
      ghost var expected := ResultEvents(chunks, art);
      for i := 0 to |chunks|
        invariant outbox == started + expected[..i]
        invariant !FitsModel(audio) ==> i == 0
      {
        if |chunks[i]| != ModelInputLength {
          // the reshape to [1, 144000] throws
          assert !FitsModel(audio) && i == 0;
          assert PredictionEvents(audio, art) == [Status(StartedMessage)];
          return;
        }
        var probs := model.value(chunks[i]);
        var top := TopResults(probs, labels.value);
        assert Result(i, top) == expected[i];
        AppendNext(started, expected, i);
        outbox := outbox + [Result(i, top)];
      }
      assert FitsModel(audio) && outbox == started + expected;
      assert PredictionEvents(audio, art) == [Status(StartedMessage)] + expected + [Status(CompletedMessage)];
      Regroup(old(outbox), [Status(StartedMessage)], expected, [Status(CompletedMessage)]);
      outbox := outbox + [Status(CompletedMessage)];
      assert Loaded() == art;
    }

    /** The `message` listener: dispatch on the request's type; any other
        type is ignored. */
    method HandleMessage(request: Request, loaded: Option<Artifacts>)
      requires Valid()
      modifies this
      ensures Valid()
      ensures request.Init? && loaded.Some? ==>
        isInitialized && model == Some(loaded.value.model) && labels == Some(loaded.value.labels) &&
        outbox == old(outbox) + [Ready]
      ensures request.Init? && loaded.None? ==>
        model == old(model) && labels == old(labels) && isInitialized == old(isInitialized) &&
        outbox == old(outbox)
      ensures request.Predict? ==>
        model == old(model) && labels == old(labels) && isInitialized == old(isInitialized) &&
        outbox == old(outbox) + (if isInitialized then PredictionEvents(request.audioData, Loaded())
                                 else [Error(NotInitializedMessage)])
      ensures request.Other? ==>
        model == old(model) && labels == old(labels) && isInitialized == old(isInitialized) &&
        outbox == old(outbox)
    {
      match request
      case Init => HandleInit(loaded);
      case Predict(audio) => HandlePredict(audio);
      case Other(_) =>
    }
  }

  /** A request refused before initialisation does not spoil the worker: after
      `init` the same request runs in full. */
  method RefusedThenServed(audio: AudioData, art: Artifacts) returns (posted: seq<Event>)
    ensures posted == [Error(NotInitializedMessage), Ready] + PredictionEvents(audio, art)
  {
    var worker := new BirdNetWorker();
    worker.HandleMessage(Predict(audio), None);
    assert worker.outbox == [Error(NotInitializedMessage)];
    worker.HandleMessage(Init, Some(art));
    assert worker.isInitialized && worker.Loaded() == art;
    assert worker.outbox == [Error(NotInitializedMessage), Ready];
    worker.HandleMessage(Predict(audio), None);
    posted := worker.outbox;
  }
}
