/**
 * The application controller: the recording and processing flags driven by the
 * hotkey toggle, the audio engine it starts and stops, and what it does with a
 * finished transcription.
 *
 * The Qt signals and worker threads become events (methods) on one object. A
 * transcription worker is recorded as a dispatched segment; its outcome arrives
 * later through `OnTranscriptionComplete` or `OnTranscriptionError`. Delayed
 * text injection and history writes are recorded as the calls they schedule.
 */
module App {
  import opened Wrappers
  import opened Text
  import opened Configuration
  import Audio
  import Hotkey

  type Sample = Audio.Sample

  /** Segments shorter than this (100 ms at 16 kHz) are never transcribed. */
  const MinSegmentSamples := 1600

  /** The confidence the controller records for every history entry. */
  const RecordedConfidence := 0.9

  datatype TrayState = Idle | Recording | Processing | Error

  /** The arguments of one `add_entry` call. */
  datatype HistoryWrite = HistoryWrite(text: string, duration: real, confidence: real,
                                       language: string, model: string)

  /** The keyword parameters the hotkey manager's constructor declares. */
  const HotkeyManagerParameters: seq<string> := ["hotkey", "on_press", "on_release"]

  /** The keywords startup passes when it builds the hotkey manager. */
  const StartupKeywords: seq<string> := ["hotkey", "on_toggle"]

  /** The qualified name Python gives the hotkey manager's constructor in its error messages. */
  const HotkeyManagerInit: string := "HotkeyManager.__init__"

  /** The text of the `TypeError` for calling `callee` with an undeclared `keyword`. */
  function UnexpectedKeyword(callee: string, keyword: string): string {
    callee + "() got an unexpected keyword argument '" + keyword + "'"
  }

  /** Python's keyword binding: the first keyword that is not a declared parameter is a `TypeError`. */
  function BindKeywords(callee: string, declared: seq<string>, passed: seq<string>): (r: Result<()>)
    ensures r.Ok? <==> forall i :: 0 <= i < |passed| ==> passed[i] in declared
    ensures r.Err? ==> exists i :: 0 <= i < |passed| && passed[i] !in declared
                         && (forall j :: 0 <= j < i ==> passed[j] in declared)
                         && r.message == UnexpectedKeyword(callee, passed[i])
  {
    if passed == [] then Ok(())
    else if passed[0] !in declared then Err(UnexpectedKeyword(callee, passed[0]))
    else
      var rest := BindKeywords(callee, declared, passed[1..]);
      assert forall i :: 1 <= i < |passed| ==> passed[i] == passed[1..][i - 1];
      FirstUndeclaredShift(callee, declared, passed, rest);
      rest
  }

  /** An undeclared keyword that is first in the tail, after a declared head, is first in the whole call. */
  lemma FirstUndeclaredShift(callee: string, declared: seq<string>, passed: seq<string>, rest: Result<()>)
    requires passed != [] && passed[0] in declared
    requires rest.Err? ==> exists k :: 0 <= k < |passed| - 1 && passed[1..][k] !in declared
                             && (forall j :: 0 <= j < k ==> passed[1..][j] in declared)
                             && rest.message == UnexpectedKeyword(callee, passed[1..][k])
    ensures rest.Err? ==> exists i :: 0 <= i < |passed| && passed[i] !in declared
                            && (forall j :: 0 <= j < i ==> passed[j] in declared)
                            && rest.message == UnexpectedKeyword(callee, passed[i])
  {
    if rest.Err? {
      var k :| 0 <= k < |passed| - 1 && passed[1..][k] !in declared
               && (forall j :: 0 <= j < k ==> passed[1..][j] in declared)
               && rest.message == UnexpectedKeyword(callee, passed[1..][k]);
      forall j | 0 <= j < k + 1 ensures passed[j] in declared {
        if j > 0 {
          assert passed[j] == passed[1..][j - 1];
        }
      }
      assert passed[k + 1] == passed[1..][k];
    }
  }

  /**
   * The hotkey step of startup: binding the keywords, then parsing the activation
   * key. Any error aborts startup, which then reports failure.
   */
  function BuildHotkey(keywords: seq<string>, activationKey: string, system: string): (r: Result<Hotkey.Combo>)
    ensures BindKeywords(HotkeyManagerInit, HotkeyManagerParameters, keywords).Err? ==> r.Err?
    ensures BindKeywords(HotkeyManagerInit, HotkeyManagerParameters, keywords).Ok? ==> r == Hotkey.Parse(activationKey, system)
  {
    match BindKeywords(HotkeyManagerInit, HotkeyManagerParameters, keywords)
    case Err(e) => Err(e)
    case Ok(_) => Hotkey.Parse(activationKey, system)
  }

  /** As written, startup fails for every configured activation key: `on_toggle` is not a parameter. */
  lemma StartupAlwaysFails(activationKey: string, system: string)
    ensures BuildHotkey(StartupKeywords, activationKey, system) ==
              Err(UnexpectedKeyword(HotkeyManagerInit, "on_toggle"))
  {
    assert StartupKeywords[1] == "on_toggle";
    assert "on_toggle" != HotkeyManagerParameters[0];
    assert "on_toggle"[3] != HotkeyManagerParameters[1][3];
    assert "on_toggle" != HotkeyManagerParameters[2];
    assert StartupKeywords[0] == HotkeyManagerParameters[0];
    assert StartupKeywords[1..] == ["on_toggle"];
  }

  /** The keywords the constructor accepts: the toggle registered as the press callback. */
  const CorrectedStartupKeywords: seq<string> := ["hotkey", "on_press"]

  /** `len(samples) / 16000`: the length in seconds at the fixed 16 kHz the app assumes. */
  function Seconds(samples: seq<Sample>): (d: real)
    ensures d >= 0.0
    ensures d == 0.0 <==> samples == []
  {
    |samples| as real / 16000.0
  }

  /**
   * With the toggle passed as `on_press`, startup succeeds exactly when the
   * activation key parses; the shipped default `ctrl+shift` still does not.
   */
  lemma CorrectedStartupParses(activationKey: string, system: string)
    ensures BuildHotkey(CorrectedStartupKeywords, activationKey, system) == Hotkey.Parse(activationKey, system)
    ensures BuildHotkey(CorrectedStartupKeywords, DefaultHotkey.activationKey, system).Err?
  {
    assert CorrectedStartupKeywords[0] == HotkeyManagerParameters[0];
    assert CorrectedStartupKeywords[1] == HotkeyManagerParameters[1];
    assert forall i :: 0 <= i < |CorrectedStartupKeywords| ==> CorrectedStartupKeywords[i] in HotkeyManagerParameters;
    Hotkey.DefaultHotkeyRejected(system);
  }

  class LocalWhisperApp {
    const audio: Audio.AudioEngine
    /** The input devices the audio back end lists. */
    const devices: seq<Audio.AudioDevice>
    const transcription: TranscriptionSettings
    var isRecording: bool
    var isProcessing: bool
    var tray: TrayState
    /** The segments handed to transcription workers, in order. */
    var dispatched: seq<seq<Sample>>
    /** The texts scheduled for injection. */
    var injected: seq<string>
    var historyWrites: seq<HistoryWrite>
    /** The error notifications shown. */
    var errorsShown: seq<string>

    /**
     * Recording and processing never overlap; the engine records only while the
     * controller is recording and its buffer is empty whenever it is stopped (so
     * also while processing); no dispatched segment is shorter than 100 ms.
     */
    ghost predicate Valid()
      reads this, audio
    {
      && audio.Valid()
      && !(isRecording && isProcessing)
      && (audio.isRecording ==> isRecording)
      && (!audio.isRecording ==> audio.buffer == [])
      && (forall i :: 0 <= i < |dispatched| ==> |dispatched[i]| >= MinSegmentSamples)
    }

    constructor(audioSettings: AudioSettings, transcription: TranscriptionSettings,
                devices: seq<Audio.AudioDevice>)
      requires audioSettings.sampleRate > 0
      ensures Valid() && fresh(audio)
      ensures this.devices == devices && this.transcription == transcription
      ensures !isRecording && !isProcessing && tray == Idle
      ensures dispatched == [] && injected == [] && historyWrites == [] && errorsShown == []
      ensures !audio.isRecording && audio.buffer == [] && audio.sampleRate == audioSettings.sampleRate
    {
      audio := new Audio.AudioEngine(Some(audioSettings));
      this.devices := devices;
      this.transcription := transcription;
      isRecording := false;
      isProcessing := false;
      tray := Idle;
      dispatched := [];
      injected := [];
      historyWrites := [];
      errorsShown := [];
    }

    /** `_on_recording_started`: marks recording, shows the state and starts capture. */
    method OnRecordingStarted()
      requires Valid() && !isProcessing
      modifies this, audio
      ensures Valid()
      ensures isRecording && !isProcessing && tray == Recording
      ensures dispatched == old(dispatched) && injected == old(injected)
      ensures historyWrites == old(historyWrites) && errorsShown == old(errorsShown)
      ensures old(audio.isRecording) ==> audio.buffer == old(audio.buffer) && audio.isRecording
      ensures old(audio.isInitialized) || devices != [] ==> audio.isRecording
      ensures audio.buffer == old(audio.buffer)
    {
      isRecording := true;
      tray := Recording;
      var started := audio.StartRecording(devices);
    }

    /**
     * `_on_recording_stopped`: a no-op unless recording; otherwise stops capture and
     * either returns to idle (a segment under 100 ms) or dispatches one transcription.
     */
    method OnRecordingStopped()
      requires Valid()
      modifies this, audio
      ensures Valid()
      ensures injected == old(injected) && historyWrites == old(historyWrites)
      ensures errorsShown == old(errorsShown)
      ensures !old(isRecording) ==>
                && isRecording == old(isRecording) && isProcessing == old(isProcessing)
                && tray == old(tray) && dispatched == old(dispatched)
                && audio.buffer == old(audio.buffer) && audio.isRecording == old(audio.isRecording)
      ensures old(isRecording) ==> !isRecording && !audio.isRecording && audio.buffer == []
      ensures old(isRecording) && |old(audio.buffer)| >= MinSegmentSamples ==>
                isProcessing && tray == Processing && dispatched == old(dispatched) + [old(audio.buffer)]
      ensures old(isRecording) && |old(audio.buffer)| < MinSegmentSamples ==>
                !isProcessing && tray == Idle && dispatched == old(dispatched)
    {
      if !isRecording {
        return;
      }
      isRecording := false;
      isProcessing := true;
      tray := Processing;
      var segment := audio.StopRecording();
      if |segment| < MinSegmentSamples {
        isProcessing := false;
        tray := Idle;
        return;
      }
      dispatched := dispatched + [segment];
    }

    /** `_toggle_recording`: ignored while processing; otherwise stops or starts. */
    method ToggleRecording()
      requires Valid()
      modifies this, audio
      ensures Valid()
      ensures old(isProcessing) ==>
                && isRecording == old(isRecording) && isProcessing && tray == old(tray)
                && dispatched == old(dispatched)
                && audio.buffer == old(audio.buffer) && audio.isRecording == old(audio.isRecording)
      ensures !old(isProcessing) && !old(isRecording) ==>
                && isRecording && tray == Recording && dispatched == old(dispatched)
                && audio.buffer == old(audio.buffer)
                && (old(audio.isInitialized) || devices != [] ==> audio.isRecording)
      ensures !old(isProcessing) && old(isRecording) ==> !isRecording && !audio.isRecording && audio.buffer == []
      ensures !old(isProcessing) && old(isRecording) && |old(audio.buffer)| >= MinSegmentSamples ==>
                isProcessing && tray == Processing && dispatched == old(dispatched) + [old(audio.buffer)]
      ensures !old(isProcessing) && old(isRecording) && |old(audio.buffer)| < MinSegmentSamples ==>
                !isProcessing && tray == Idle && dispatched == old(dispatched)
      ensures |dispatched| <= |old(dispatched)| + 1
      ensures injected == old(injected) && historyWrites == old(historyWrites)
      ensures errorsShown == old(errorsShown)
    {
      if isProcessing {
        return;
      }
      if isRecording {
        OnRecordingStopped();
      } else {
        OnRecordingStarted();
      }
    }

    /** The microphone stream delivers a chunk; only an open stream does. */
    method OnAudioChunk(chunk: seq<Sample>)
      requires Valid()
      modifies audio
      ensures Valid()
      ensures audio.isRecording == old(audio.isRecording)
      ensures old(audio.isRecording) ==> audio.buffer == Audio.LastN(old(audio.buffer) + chunk, audio.capacity)
      ensures !old(audio.isRecording) ==> audio.buffer == old(audio.buffer)
    {
      if audio.isRecording {
        audio.AppendChunk(chunk);
      }
    }

    /**
     * `_on_transcription_complete`: clears processing; text that is not blank is
     * scheduled for injection and written to history with the duration of what is
     * left in the audio buffer.
     */
    method OnTranscriptionComplete(text: string)
      requires Valid()
      modifies this
      ensures Valid()
      ensures !isProcessing && tray == Idle && isRecording == old(isRecording)
      ensures dispatched == old(dispatched) && errorsShown == old(errorsShown)
      ensures Strip(text) == [] ==> injected == old(injected) && historyWrites == old(historyWrites)
      ensures Strip(text) != [] ==>
                && injected == old(injected) + [text]
                && historyWrites == old(historyWrites) +
                     [HistoryWrite(text, Seconds(audio.buffer), RecordedConfidence,
                                   transcription.language, transcription.modelName)]
      ensures old(isProcessing) && Strip(text) != [] ==> historyWrites[|historyWrites| - 1].duration == 0.0
    {
      isProcessing := false;
      tray := Idle;
      if Strip(text) == [] {
        return;
      }
      injected := injected + [text];
      var current := audio.GetCurrentAudio();
      historyWrites := historyWrites + [HistoryWrite(text, Seconds(current), RecordedConfidence,
                                                     transcription.language, transcription.modelName)];
    }

    /** `_on_transcription_error`: clears processing and shows the error; nothing is injected or stored. */
    method OnTranscriptionError(error: string)
      requires Valid()
      modifies this
      ensures Valid()
      ensures !isProcessing && tray == Error && isRecording == old(isRecording)
      ensures errorsShown == old(errorsShown) + ["Transcription failed: " + error]
      ensures dispatched == old(dispatched) && injected == old(injected)
      ensures historyWrites == old(historyWrites)
    {
      isProcessing := false;
      tray := Error;
      errorsShown := errorsShown + ["Transcription failed: " + error];
    }

    /** The timer three seconds after an error puts the tray icon back to idle. */
    method OnErrorTimeout()
      modifies this
      ensures tray == Idle
      ensures isRecording == old(isRecording) && isProcessing == old(isProcessing)
      ensures dispatched == old(dispatched) && injected == old(injected)
      ensures historyWrites == old(historyWrites) && errorsShown == old(errorsShown)
    {
      tray := Idle;
    }
  }

  /**
   * A full dictation: start, one second of audio, stop (dispatching it), a second
   * toggle that is ignored while processing, then the transcript arrives.
   */
  method DictationScenario(second: seq<Sample>) {
    var mic := Audio.AudioDevice(0, "mic", 1, 16000, true);
    var app := new LocalWhisperApp(DefaultAudio, DefaultTranscription, [mic]);
    app.ToggleRecording();
    assert app.isRecording && app.audio.isRecording && app.audio.buffer == [];
    if |second| == 16000 {
      app.OnAudioChunk(second);
      assert [] + second == second;
      assert app.audio.buffer == second;
      app.ToggleRecording();
      assert app.isProcessing && app.dispatched == [second];
      app.ToggleRecording();
      assert app.dispatched == [second];
      assert ("hello"[0]) == 'h';
      app.OnTranscriptionComplete("hello");
      assert app.injected == ["hello"];
      assert app.historyWrites == [HistoryWrite("hello", 0.0, 0.9, "en", "turbo")];
      assert !app.isRecording && !app.isProcessing;
    }
  }

  /** A tap shorter than 100 ms goes back to idle without transcribing. */
  method ShortTapScenario(blip: seq<Sample>) {
    var mic := Audio.AudioDevice(0, "mic", 1, 16000, true);
    var app := new LocalWhisperApp(DefaultAudio, DefaultTranscription, [mic]);
    app.ToggleRecording();
    if |blip| == 800 {
      app.OnAudioChunk(blip);
      assert [] + blip == blip;
      app.ToggleRecording();
      assert !app.isRecording && !app.isProcessing && app.tray == Idle && app.dispatched == [];
    }
  }
}
