/**
 * The transcription engine: choice of device and numeric precision, loading and
 * unloading a Whisper model (with the English-only rewrite of model names), turning
 * the model's segments into one result, and the streaming accumulator.
 *
 * The Whisper model is foreign: `Whisper` maps a loaded model and an audio array to
 * the segments it recognises (or the message of the exception it raised). Whether a
 * GPU is present, its memory, and whether model construction succeeds are parameters.
 */
module Transcription {
  import opened Wrappers
  import opened Text
  import opened Configuration
  import Audio

  type Sample = Audio.Sample

  /** The rate Whisper expects; audio durations are measured against it. */
  const WhisperRate := 16000

  /** Streaming transcribes once this many samples (half a second) have accumulated. */
  const MinStreamingSamples := 8000

  /** GPUs with at least this much memory run in half precision. */
  const HalfPrecisionMemory := 8 * 1024 * 1024 * 1024

  // ---------------------------------------------------------------- device choice

  /** The device used when the settings say "auto": CUDA when torch sees a GPU, else CPU. */
  function DetectDevice(cudaAvailable: bool): (r: string)
    ensures r == "cuda" || r == "cpu"
    ensures r == "cuda" <==> cudaAvailable
  {
    if cudaAvailable then "cuda" else "cpu"
  }

  /**
   * The compute type used when the settings say "auto". `gpuMemory` is the total
   * memory of GPU 0 in bytes, or None when querying it raised.
   */
  function DetectComputeType(device: string, gpuMemory: Option<nat>): (r: string)
    ensures r == "float16" || r == "int8"
    ensures r == "float16" <==>
              device == "cuda" && gpuMemory.Some? && gpuMemory.value >= HalfPrecisionMemory
  {
    if device == "cuda" then
      match gpuMemory
      case Some(bytes) => if bytes >= HalfPrecisionMemory then "float16" else "int8"
      case None => "int8"
    else "int8"
  }

  datatype ComputeConfig = ComputeConfig(device: string, computeType: string)

  /** Explicit settings are used verbatim; "auto" is resolved, compute type after device. */
  function DetectComputeConfig(s: TranscriptionSettings, cudaAvailable: bool, gpuMemory: Option<nat>)
    : (r: ComputeConfig)
    ensures s.device != "auto" ==> r.device == s.device
    ensures s.device == "auto" ==> (r.device == "cuda" <==> cudaAvailable)
    ensures s.computeType != "auto" ==> r.computeType == s.computeType
    ensures s.computeType == "auto" ==> r.computeType == DetectComputeType(r.device, gpuMemory)
  {
    var device := if s.device != "auto" then s.device else DetectDevice(cudaAvailable);
    var computeType := if s.computeType != "auto" then s.computeType
                       else DetectComputeType(device, gpuMemory);
    ComputeConfig(device, computeType)
  }

  /** The default settings on a machine without CUDA run in int8 on the CPU. */
  lemma DefaultsWithoutGpu(gpuMemory: Option<nat>)
    ensures DetectComputeConfig(DefaultTranscription, false, gpuMemory) == ComputeConfig("cpu", "int8")
  {
  }

  /** The default settings on a CUDA machine use float16 exactly when it has 8 GiB or more. */
  lemma DefaultsWithGpu(bytes: nat)
    ensures DetectComputeConfig(DefaultTranscription, true, Some(bytes)).device == "cuda"
    ensures DetectComputeConfig(DefaultTranscription, true, Some(bytes)).computeType ==
              (if bytes >= HalfPrecisionMemory then "float16" else "int8")
  {
  }

  // ---------------------------------------------------------------- model names

  /** The sizes that have an English-only variant. */
  const SizesWithEnglishVariant: set<string> := {"tiny", "base", "small", "medium"}

  /** The model actually constructed: the ".en" variant of a small size when the language is English. */
  function ActualModelName(language: string, name: string): (r: string)
    ensures language == "en" && name in SizesWithEnglishVariant ==> r == name + ".en"
    ensures !(language == "en" && name in SizesWithEnglishVariant) ==> r == name
  {
    if language == "en" && name in SizesWithEnglishVariant then name + ".en" else name
  }

  /** Every rewritten name is an offered model, and an offered name is never rewritten. */
  lemma ActualModelNames(language: string, name: string)
    ensures name in SizesWithEnglishVariant && language == "en" ==>
              ActualModelName(language, name) in AvailableModels
              && AvailableModels[ActualModelName(language, name)].englishOnly
    ensures name in AvailableModels ==> ActualModelName(language, name) == name
  {
    assert "tiny" + ".en" == "tiny.en";
    assert "base" + ".en" == "base.en";
    assert "small" + ".en" == "small.en";
    assert "medium" + ".en" == "medium.en";
  }

  /** `model_name or settings.model_name`: an absent or empty argument falls back to the settings. */
  function RequestedName(name: Option<string>, s: TranscriptionSettings): (r: string)
    ensures name.Some? && name.value != "" ==> r == name.value
    ensures name.None? || name.value == "" ==> r == s.modelName
  {
    if name.Some? && name.value != "" then name.value else s.modelName
  }

  // ---------------------------------------------------------------- model output

  /** What constructing `WhisperModel` did. */
  datatype LoadOutcome = Loaded | NotInstalled | LoadFailed(reason: string)

  function LoadError(o: LoadOutcome): string {
    match o
    case LoadFailed(reason) => "Failed to load model: " + reason
    case _ => "faster-whisper is not installed. Install with: pip install faster-whisper"
  }

  /** A constructed model: the name it was built from and where it runs. */
  datatype LoadedModel = LoadedModel(actualName: string, device: string, computeType: string)

  /**
   * One recognised segment. `probability` is exp(avgLogprob), which the model's
   * runtime supplies (floating-point exponentiation is not modelled).
   */
  datatype Segment = Segment(text: string, avgLogprob: real, probability: real)

  /** The segments of one run and the language the model detected. */
  datatype WhisperRun = WhisperRun(segments: seq<Segment>, language: string)

  type Whisper = (LoadedModel, seq<Sample>) -> Result<WhisperRun>

  datatype TranscriptionResult = TranscriptionResult(
    text: string, language: string, confidence: real, duration: real,
    processingTime: real, isPartial: bool)

  /** A segment's confidence: exp(avg_logprob), or 0.5 when avg_logprob is falsy (zero). */
  function SegmentConfidence(g: Segment): (r: real)
    ensures g.avgLogprob != 0.0 ==> r == g.probability
    ensures g.avgLogprob == 0.0 ==> r == 0.5
  {
    if g.avgLogprob != 0.0 then g.probability else 0.5
  }

  function TotalConfidence(segs: seq<Segment>): real {
    if segs == [] then 0.0 else TotalConfidence(segs[..|segs| - 1]) + SegmentConfidence(segs[|segs| - 1])
  }

  /** The mean segment confidence, 0.0 when there are no segments. */
  function MeanConfidence(segs: seq<Segment>): (r: real)
    ensures segs == [] ==> r == 0.0
  {
    if segs == [] then 0.0 else TotalConfidence(segs) / (|segs| as real)
  }

  predicate ProbabilitiesInUnit(segs: seq<Segment>) {
    forall i :: 0 <= i < |segs| ==> 0.0 <= segs[i].probability <= 1.0
  }

  lemma {:induction false} TotalConfidenceBounds(segs: seq<Segment>)
    requires ProbabilitiesInUnit(segs)
    ensures 0.0 <= TotalConfidence(segs) <= |segs| as real
  {
    if segs != [] {
      TotalConfidenceBounds(segs[..|segs| - 1]);
    }
  }

  /** With probabilities in [0, 1] the reported confidence is in [0, 1]. */
  lemma MeanConfidenceBounds(segs: seq<Segment>)
    requires ProbabilitiesInUnit(segs)
    ensures 0.0 <= MeanConfidence(segs) <= 1.0
  {
    TotalConfidenceBounds(segs);
  }

  function SegmentTexts(segs: seq<Segment>): (r: seq<string>)
    ensures |r| == |segs| && forall i :: 0 <= i < |segs| ==> r[i] == segs[i].text
  {
    seq(|segs|, i requires 0 <= i < |segs| => segs[i].text)
  }

  /** The transcript: the segment texts joined with nothing between them, then stripped. */
  function FullText(segs: seq<Segment>): (r: string)
    ensures r == Strip(Concat(SegmentTexts(segs)))
    ensures r != [] ==> !IsSpace(r[0]) && !IsSpace(r[|r| - 1])
  {
    Strip(Concat(SegmentTexts(segs)))
  }

  /** The result of one successful run over `sampleCount` samples taking `elapsed` seconds. */
  function Assemble(run: WhisperRun, sampleCount: nat, elapsed: real): (r: TranscriptionResult)
    ensures r.text == FullText(run.segments) && r.language == run.language
    ensures r.duration * (WhisperRate as real) == sampleCount as real
    ensures r.confidence == MeanConfidence(run.segments) && r.processingTime == elapsed
    ensures !r.isPartial
  {
    TranscriptionResult(FullText(run.segments), run.language, MeanConfidence(run.segments),
                        (sampleCount as real) / (WhisperRate as real), elapsed, false)
  }

  /** What `transcribe` returns once a model is loaded. */
  function RunModel(whisper: Whisper, m: LoadedModel, audio: seq<Sample>, elapsed: real)
    : (r: Result<TranscriptionResult>)
    ensures whisper(m, audio).Ok? ==> r == Ok(Assemble(whisper(m, audio).value, |audio|, elapsed))
    ensures whisper(m, audio).Err? ==> r == Err("Transcription failed: " + whisper(m, audio).message)
  {
    match whisper(m, audio)
    case Ok(run) => Ok(Assemble(run, |audio|, elapsed))
    case Err(e) => Err("Transcription failed: " + e)
  }

  /** The result streaming hands back: marked partial unless the chunk was the last. */
  function StreamingResult(r: Result<TranscriptionResult>, isFinal: bool)
    : (s: Result<Option<TranscriptionResult>>)
    ensures r.Err? ==> s == Err(r.message)
    ensures r.Ok? ==> s.Ok? && s.value.Some? && s.value.value.(isPartial := r.value.isPartial) == r.value
    ensures r.Ok? && !isFinal ==> s.value.value.isPartial
    ensures r.Ok? && isFinal ==> s.value.value == r.value
  {
    match r
    case Err(e) => Err(e)
    case Ok(t) => Ok(Some(if isFinal then t else t.(isPartial := true)))
  }

  // ---------------------------------------------------------------- the engine

  class TranscriptionEngine {
    const settings: TranscriptionSettings
    const device: string
    const computeType: string
    var model: Option<LoadedModel>
    var modelName: Option<string>
    var isLoaded: bool
    var streamingBuffer: seq<seq<Sample>>
    var lastTranscription: string

    /** Loaded, a model and a model name go together, and the model matches the name. */
    ghost predicate Valid()
      reads this
    {
      && (isLoaded <==> model.Some?)
      && (isLoaded <==> modelName.Some?)
      && (isLoaded ==>
            model.value == LoadedModel(ActualModelName(settings.language, modelName.value), device, computeType))
    }

    /** The model that loading `name` constructs on this engine. */
    function ModelFor(name: string): (m: LoadedModel)
      reads this
      ensures m.actualName == ActualModelName(settings.language, name)
      ensures m.device == device && m.computeType == computeType
    {
      LoadedModel(ActualModelName(settings.language, name), device, computeType)
    }

    constructor(s: Option<TranscriptionSettings>, cudaAvailable: bool, gpuMemory: Option<nat>)
      ensures settings == (if s.Some? then s.value else DefaultTranscription)
      ensures ComputeConfig(device, computeType) == DetectComputeConfig(settings, cudaAvailable, gpuMemory)
      ensures model == None && modelName == None && !isLoaded
      ensures streamingBuffer == [] && lastTranscription == ""
      ensures Valid()
    {
      settings := if s.Some? then s.value else DefaultTranscription;
      var config := DetectComputeConfig(if s.Some? then s.value else DefaultTranscription,
                                        cudaAvailable, gpuMemory);
      device := config.device;
      computeType := config.computeType;
      model := None;
      modelName := None;
      isLoaded := false;
      streamingBuffer := [];
      lastTranscription := "";
    }

    /** Drops the model, if there is one. */
    method UnloadModel()
      requires Valid()
      modifies this
      ensures Valid() && !isLoaded && model == None && modelName == None
      ensures streamingBuffer == old(streamingBuffer) && lastTranscription == old(lastTranscription)
    {
      if model.Some? {
        model := None;
        modelName := None;
        isLoaded := false;
      }
    }

    /**
     * Loads the requested model. Asking for the model already loaded does nothing;
     * otherwise the current model is unloaded first, so a failed load leaves none.
     */
    method LoadModel(name: Option<string>, outcome: LoadOutcome) returns (r: Result<()>)
      requires Valid()
      modifies this
      ensures Valid()
      ensures streamingBuffer == old(streamingBuffer) && lastTranscription == old(lastTranscription)
      ensures old(isLoaded) && old(modelName) == Some(RequestedName(name, settings)) ==>
                r == Ok(()) && model == old(model) && modelName == old(modelName) && isLoaded
      ensures !(old(isLoaded) && old(modelName) == Some(RequestedName(name, settings))) ==>
                if outcome.Loaded? then
                  r == Ok(()) && isLoaded && modelName == Some(RequestedName(name, settings))
                  && model == Some(ModelFor(RequestedName(name, settings)))
                else
                  r == Err(LoadError(outcome)) && !isLoaded && model == None && modelName == None
    {
      var n := RequestedName(name, settings);
      if isLoaded && modelName == Some(n) {
        return Ok(());
      }
      if isLoaded {
        UnloadModel();
      }
      if !outcome.Loaded? {
        return Err(LoadError(outcome));
      }
      model := Some(ModelFor(n));
      modelName := Some(n);
      isLoaded := true;
      r := Ok(());
    }

    /**
     * Transcribes 16 kHz audio, loading the configured model first when none is
     * loaded (`outcome` says how that load goes).
     */
    method Transcribe(audio: seq<Sample>, outcome: LoadOutcome, whisper: Whisper, elapsed: real)
      returns (r: Result<TranscriptionResult>)
      requires Valid()
      modifies this
      ensures Valid()
      ensures streamingBuffer == old(streamingBuffer) && lastTranscription == old(lastTranscription)
      ensures old(isLoaded) ==> model == old(model) && modelName == old(modelName) && isLoaded
      ensures isLoaded <==> old(isLoaded) || outcome.Loaded?
      ensures !old(isLoaded) && outcome.Loaded? ==> modelName == Some(settings.modelName)
      ensures isLoaded ==> r == RunModel(whisper, model.value, audio, elapsed)
      ensures !isLoaded ==> !old(isLoaded) && !outcome.Loaded? && r == Err(LoadError(outcome))
    {
      if !isLoaded {
        var loaded := LoadModel(None, outcome);
        if loaded.Err? {
          return Err(loaded.message);
        }
      }
      r := RunModel(whisper, model.value, audio, elapsed);
    }

    /**
     * Adds a chunk to the streaming buffer and transcribes everything accumulated
     * once there is half a second of it, or when the chunk is the last one. A final
     * transcription clears the buffer; a partial one is remembered.
     */
    method TranscribeStreaming(chunk: seq<Sample>, isFinal: bool, outcome: LoadOutcome,
                               whisper: Whisper, elapsed: real)
      returns (r: Result<Option<TranscriptionResult>>)
      requires Valid()
      modifies this
      ensures Valid()
      ensures var full := Concat(old(streamingBuffer) + [chunk]);
              if |full| < MinStreamingSamples && !isFinal then
                r == Ok(None) && streamingBuffer == old(streamingBuffer) + [chunk]
                && lastTranscription == old(lastTranscription)
                && model == old(model) && modelName == old(modelName) && isLoaded == old(isLoaded)
              else
                && (isLoaded <==> old(isLoaded) || outcome.Loaded?)
                && (old(isLoaded) ==> model == old(model) && modelName == old(modelName))
                && (!old(isLoaded) && isLoaded ==> modelName == Some(settings.modelName))
                && (isLoaded ==> r == StreamingResult(RunModel(whisper, model.value, full, elapsed), isFinal))
                && (!isLoaded ==> r == Err(LoadError(outcome)))
                && (r.Ok? && isFinal ==> streamingBuffer == [] && lastTranscription == "")
                && (r.Ok? && !isFinal ==> streamingBuffer == old(streamingBuffer) + [chunk]
                                          && lastTranscription == r.value.value.text)
                && (r.Err? ==> streamingBuffer == old(streamingBuffer) + [chunk]
                               && lastTranscription == old(lastTranscription))
    {
      streamingBuffer := streamingBuffer + [chunk];
      var full := Concat(streamingBuffer);
      if |full| < MinStreamingSamples && !isFinal {
        return Ok(None);
      }
      var result := Transcribe(full, outcome, whisper, elapsed);
      if result.Err? {
        return Err(result.message);
      }
      var t := result.value;
      if isFinal {
        streamingBuffer := [];
        lastTranscription := "";
      } else {
        lastTranscription := t.text;
        t := t.(isPartial := true);
      }
      r := Ok(Some(t));
    }

    method ResetStreaming()
      modifies this
      ensures streamingBuffer == [] && lastTranscription == ""
      ensures model == old(model) && modelName == old(modelName) && isLoaded == old(isLoaded)
    {
      streamingBuffer := [];
      lastTranscription := "";
    }
  }

  /** The streaming buffer holds every chunk since the last final one; its samples are their concatenation. */
  lemma StreamingAccumulates(chunks: seq<seq<Sample>>, chunk: seq<Sample>)
    ensures Concat(chunks + [chunk]) == Concat(chunks) + chunk
  {
    assert (chunks + [chunk])[..|chunks + [chunk]| - 1] == chunks;
  }

  /**
   * Two chunks of a quarter second: the first returns nothing, the second
   * transcribes the 8000 accumulated samples as a partial result, and a final empty
   * chunk clears the buffer.
   */
  method StreamingScenario(whisper: Whisper, c1: seq<Sample>, c2: seq<Sample>)
    requires |c1| == 4000 && |c2| == 4000
    requires forall m, a :: whisper(m, a).Ok?
  {
    var e := new TranscriptionEngine(None, false, None);
    var r := e.TranscribeStreaming(c1, false, Loaded, whisper, 0.0);
    assert r == Ok(None) && !e.isLoaded;
    StreamingAccumulates([c1], c2);
    r := e.TranscribeStreaming(c2, false, Loaded, whisper, 0.0);
    DefaultsWithoutGpu(None);
    assert e.isLoaded && e.model == Some(LoadedModel("turbo", "cpu", "int8"));
    assert r.Ok? && r.value.Some? && r.value.value.isPartial;
    assert e.lastTranscription == r.value.value.text;
    r := e.TranscribeStreaming([], true, Loaded, whisper, 0.0);
    assert r.Ok? && !r.value.value.isPartial;
    assert e.streamingBuffer == [] && e.lastTranscription == "";
  }
}
