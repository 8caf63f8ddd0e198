/**
 * Settings defaults, the per-platform directories and the `Config` object of
 * localwhisper/core/config.py.
 *
 * `platform.system()` is the parameter `system`, `os.environ` is `env` and the
 * user's home directory (`~`, `Path.home()`) is `home`.
 */
module Configuration {
  import opened Wrappers

  type Env = map<string, string>

  /** `Path(base) / parts[0] / parts[1] / ...`. */
  datatype Path = Path(base: string, parts: seq<string>)

  function Child(p: Path, name: string): (r: Path)
    ensures r.base == p.base && r.parts == p.parts + [name]
  {
    Path(p.base, p.parts + [name])
  }

  /** `os.environ.get(key, default)`: a variable that is set wins, even when empty. */
  function EnvGet(env: Env, key: string, default: string): (r: string)
    ensures key in env ==> r == env[key]
    ensures key !in env ==> r == default
  {
    if key in env then env[key] else default
  }

  /** The last path component is the application folder name for this platform. */
  function AppFolder(system: string): string {
    if system == "Windows" || system == "Darwin" then "LocalWhisper" else "localwhisper"
  }

  /** `get_config_dir()`. */
  function ConfigDir(system: string, env: Env, home: string): (r: Path)
    ensures r.parts != [] && r.parts[|r.parts| - 1] == AppFolder(system)
    ensures system == "Windows" ==> r.base == EnvGet(env, "APPDATA", home)
    ensures system == "Darwin" ==> r == Path(home, ["Library", "Application Support", "LocalWhisper"])
    ensures system != "Windows" && system != "Darwin" ==>
              r.base == EnvGet(env, "XDG_CONFIG_HOME", home + "/.config") && |r.parts| == 1
  {
    if system == "Windows" then
      Path(EnvGet(env, "APPDATA", home), ["LocalWhisper"])
    else if system == "Darwin" then
      Path(home, ["Library", "Application Support", "LocalWhisper"])
    else
      Path(EnvGet(env, "XDG_CONFIG_HOME", home + "/.config"), ["localwhisper"])
  }

  /** The Windows base used for data and models: LOCALAPPDATA, then APPDATA, then home. */
  function WindowsLocalBase(env: Env, home: string): (r: string)
    ensures "LOCALAPPDATA" in env ==> r == env["LOCALAPPDATA"]
    ensures "LOCALAPPDATA" !in env && "APPDATA" in env ==> r == env["APPDATA"]
    ensures "LOCALAPPDATA" !in env && "APPDATA" !in env ==> r == home
  {
    EnvGet(env, "LOCALAPPDATA", EnvGet(env, "APPDATA", home))
  }

  /** `get_data_dir()`. */
  function DataDir(system: string, env: Env, home: string): (r: Path)
    ensures r.parts != [] && r.parts[|r.parts| - 1] == AppFolder(system)
    ensures system == "Windows" ==> r == Path(WindowsLocalBase(env, home), ["LocalWhisper"])
    ensures system == "Darwin" ==> r == Path(home, ["Library", "Application Support", "LocalWhisper"])
    ensures system != "Windows" && system != "Darwin" ==>
              r.base == EnvGet(env, "XDG_DATA_HOME", home + "/.local/share") && |r.parts| == 1
  {
    if system == "Windows" then
      Path(WindowsLocalBase(env, home), ["LocalWhisper"])
    else if system == "Darwin" then
      Path(home, ["Library", "Application Support", "LocalWhisper"])
    else
      Path(EnvGet(env, "XDG_DATA_HOME", home + "/.local/share"), ["localwhisper"])
  }

  /** `get_cache_dir()`: always a `models` folder inside the application folder. */
  function CacheDir(system: string, env: Env, home: string): (r: Path)
    ensures |r.parts| >= 2 && r.parts[|r.parts| - 1] == "models"
    ensures r.parts[|r.parts| - 2] == AppFolder(system)
    ensures system == "Darwin" ==> r == Path(home, ["Library", "Caches", "LocalWhisper", "models"])
    ensures system != "Windows" && system != "Darwin" ==>
              r.base == EnvGet(env, "XDG_CACHE_HOME", home + "/.cache")
  {
    if system == "Windows" then
      Path(WindowsLocalBase(env, home), ["LocalWhisper", "models"])
    else if system == "Darwin" then
      Path(home, ["Library", "Caches", "LocalWhisper", "models"])
    else
      Path(EnvGet(env, "XDG_CACHE_HOME", home + "/.cache"), ["localwhisper", "models"])
  }

  /** On Windows the model cache is the data directory's `models` child. */
  lemma WindowsCacheInsideData(env: Env, home: string)
    ensures CacheDir("Windows", env, home) == Child(DataDir("Windows", env, home), "models")
  {
  }

  /** On macOS settings and data share one folder, and the cache lives elsewhere. */
  lemma DarwinConfigIsData(env: Env, home: string)
    ensures ConfigDir("Darwin", env, home) == DataDir("Darwin", env, home)
    ensures CacheDir("Darwin", env, home) != Child(DataDir("Darwin", env, home), "models")
  {
    assert CacheDir("Darwin", env, home).parts[1] == "Caches";
  }

  /** Without the XDG variables the three Linux folders are the usual ones under home. */
  lemma XdgFallbacks(system: string, env: Env, home: string)
    requires system != "Windows" && system != "Darwin"
    requires "XDG_CONFIG_HOME" !in env && "XDG_DATA_HOME" !in env && "XDG_CACHE_HOME" !in env
    ensures ConfigDir(system, env, home) == Path(home + "/.config", ["localwhisper"])
    ensures DataDir(system, env, home) == Path(home + "/.local/share", ["localwhisper"])
    ensures CacheDir(system, env, home) == Path(home + "/.cache", ["localwhisper", "models"])
  {
  }

  // ---------------------------------------------------------------- settings

  datatype AudioSettings = AudioSettings(
    sampleRate: int, channels: int, chunkSize: int, inputDevice: Option<string>,
    gain: real, noiseReduction: bool)

  datatype TranscriptionSettings = TranscriptionSettings(
    modelName: string, language: string, computeType: string, device: string,
    beamSize: int, vadEnabled: bool, vadThreshold: real)

  datatype HotkeySettings = HotkeySettings(activationKey: string, holdToRecord: bool)

  datatype UISettings = UISettings(
    theme: string, accentColor: string, waveformHeight: int, waveformWidth: int,
    opacity: real, showStatusText: bool, animationFps: int, waveformAlwaysOnTop: bool,
    waveformBackgroundColor: string)

  datatype FeedbackSettings = FeedbackSettings(
    soundEnabled: bool, soundVolume: real, startSound: string, stopSound: string,
    visualFeedback: bool)

  datatype HistorySettings = HistorySettings(
    enabled: bool, retentionDays: int, encryptStorage: bool, maxEntries: int)

  datatype GeneralSettings = GeneralSettings(
    launchAtStartup: bool, startMinimized: bool, checkUpdates: bool, firstRun: bool)

  const DefaultAudio := AudioSettings(16000, 1, 1600, None, 1.0, true)
  const DefaultTranscription := TranscriptionSettings("turbo", "en", "auto", "auto", 5, true, 0.5)
  const DefaultHotkey := HotkeySettings("ctrl+shift", true)
  const DefaultUI := UISettings("dark", "#3B82F6", 60, 400, 0.9, true, 60, true, "#131313")
  const DefaultFeedback := FeedbackSettings(true, 0.5, "start.wav", "stop.wav", true)
  const DefaultHistory := HistorySettings(true, 30, false, 10000)
  const DefaultGeneral := GeneralSettings(false, true, true, true)

  /** The seven sections of a configuration, as written to and read from the JSON file. */
  datatype Sections = Sections(
    general: GeneralSettings, audio: AudioSettings, transcription: TranscriptionSettings,
    hotkey: HotkeySettings, ui: UISettings, feedback: FeedbackSettings,
    history: HistorySettings)

  const DefaultSections := Sections(DefaultGeneral, DefaultAudio, DefaultTranscription,
                                    DefaultHotkey, DefaultUI, DefaultFeedback, DefaultHistory)

  /** The default chunk is 100 ms of audio at the default rate; history keeps 30 days, at most 10000 rows. */
  lemma DefaultCapture()
    ensures DefaultAudio.chunkSize * 10 == DefaultAudio.sampleRate
    ensures DefaultAudio.inputDevice == None && DefaultAudio.channels == 1
    ensures DefaultHistory.retentionDays == 30 && DefaultHistory.maxEntries == 10000
    ensures DefaultHistory.enabled
  {
  }

  /** The defaults the bundled tests assert for the hotkey are not the shipped default. */
  lemma DefaultHotkeyDiffersFromTests()
    ensures DefaultHotkey.activationKey != "ctrl+alt+r"
    ensures DefaultHotkey.activationKey != "alt+s"
  {
  }

  /** The kinds of JSON value other than an object, by the Python type `json.load` gives them. */
  datatype JsonKind = JsonNull | JsonArray | JsonString | JsonInt | JsonFloat | JsonBool

  function PyTypeName(k: JsonKind): string {
    match k
    case JsonNull => "NoneType"
    case JsonArray => "list"
    case JsonString => "str"
    case JsonInt => "int"
    case JsonFloat => "float"
    case JsonBool => "bool"
  }

  /** What the loader finds at the configuration path. */
  datatype ConfigFile =
    | Missing
      /** Invalid JSON, or a section that is not an object or holds a key its settings class does not accept. */
    | Corrupted
      /** Valid JSON whose top-level value is not an object, so it has no `get`. */
    | NotAnObject(kind: JsonKind)
      /** A parsed file; a section absent from the file is `None`. */
    | Parsed(general: Option<GeneralSettings>, audio: Option<AudioSettings>,
             transcription: Option<TranscriptionSettings>, hotkey: Option<HotkeySettings>,
             ui: Option<UISettings>, feedback: Option<FeedbackSettings>,
             history: Option<HistorySettings>)

  function OrDefault<T>(o: Option<T>, default: T): T {
    if o.Some? then o.value else default
  }

  /**
   * The sections a configuration file stands for: all defaults unless it parsed, and
   * otherwise each section found in it, with the default for each one it lacks. A file
   * that is not an object gets the defaults, as the handler for a corrupted file intends.
   */
  function LoadedSections(file: ConfigFile): (r: Sections)
    ensures !file.Parsed? ==> r == DefaultSections
    ensures file.Parsed? ==>
              && (file.general.Some? ==> r.general == file.general.value)
              && (file.general.None? ==> r.general == DefaultGeneral)
              && (file.audio.Some? ==> r.audio == file.audio.value)
              && (file.audio.None? ==> r.audio == DefaultAudio)
              && (file.transcription.Some? ==> r.transcription == file.transcription.value)
              && (file.transcription.None? ==> r.transcription == DefaultTranscription)
              && (file.hotkey.Some? ==> r.hotkey == file.hotkey.value)
              && (file.hotkey.None? ==> r.hotkey == DefaultHotkey)
              && (file.ui.Some? ==> r.ui == file.ui.value)
              && (file.ui.None? ==> r.ui == DefaultUI)
              && (file.feedback.Some? ==> r.feedback == file.feedback.value)
              && (file.feedback.None? ==> r.feedback == DefaultFeedback)
              && (file.history.Some? ==> r.history == file.history.value)
              && (file.history.None? ==> r.history == DefaultHistory)
  {
    match file
    case Missing => DefaultSections
    case Corrupted => DefaultSections
    case NotAnObject(_) => DefaultSections
    case Parsed(g, a, t, h, u, f, hi) =>
      Sections(OrDefault(g, DefaultGeneral), OrDefault(a, DefaultAudio),
               OrDefault(t, DefaultTranscription), OrDefault(h, DefaultHotkey),
               OrDefault(u, DefaultUI), OrDefault(f, DefaultFeedback),
               OrDefault(hi, DefaultHistory))
  }

  /**
   * `Config.load` as written: its handler catches `JSONDecodeError`, `TypeError` and
   * `KeyError` only, so the `AttributeError` of `data.get` on a non-object escapes.
   */
  function LoadOutcome(file: ConfigFile): (r: Result<Sections>)
    ensures r.Err? <==> file.NotAnObject?
    ensures r.Err? ==> r.message == NoGetMessage(PyTypeName(file.kind))
    ensures r.Ok? ==> r.value == LoadedSections(file)
  {
    if file.NotAnObject? then Err(NoGetMessage(PyTypeName(file.kind)))
    else Ok(LoadedSections(file))
  }

  /** The text of the `AttributeError` Python raises for `.get` on a value of type `typeName`. */
  function NoGetMessage(typeName: string): string {
    "AttributeError: '" + typeName + "' object has no attribute 'get'"
  }

  /** A file holding `[]` makes loading raise instead of falling back to the defaults. */
  lemma ListFileRaises()
    ensures LoadOutcome(NotAnObject(JsonArray)) == Err(NoGetMessage("list"))
    ensures LoadOutcome(Corrupted) == Ok(DefaultSections)
    ensures LoadedSections(NotAnObject(JsonArray)) == DefaultSections
  {
  }

  /** Saving and loading the same sections gives them back. */
  lemma SaveLoadRoundTrip(s: Sections)
    ensures LoadedSections(Parsed(Some(s.general), Some(s.audio), Some(s.transcription),
                                  Some(s.hotkey), Some(s.ui), Some(s.feedback),
                                  Some(s.history))) == s
  {
  }

  /** The `Config` object: seven mutable sections and the path it saves to. */
  class Config {
    var general: GeneralSettings
    var audio: AudioSettings
    var transcription: TranscriptionSettings
    var hotkey: HotkeySettings
    var ui: UISettings
    var feedback: FeedbackSettings
    var history: HistorySettings
    var configPath: Path

    function Current(): Sections
      reads this
    {
      Sections(general, audio, transcription, hotkey, ui, feedback, history)
    }

    /** `Config()`: all defaults. */
    constructor (path: Path)
      ensures Current() == DefaultSections && configPath == path
    {
      general, audio, transcription := DefaultGeneral, DefaultAudio, DefaultTranscription;
      hotkey, ui, feedback, history := DefaultHotkey, DefaultUI, DefaultFeedback, DefaultHistory;
      configPath := path;
    }

    /**
     * `Config.load(config_path)`: the path given, or `<config dir>/config.json`; the
     * sections read from the file, or all defaults when it is missing or corrupted; the
     * `AttributeError` when the file's JSON is not an object.
     */
    static method Load(configPathArg: Option<Path>, file: ConfigFile, system: string, env: Env, home: string)
      returns (r: Result<Config>)
      ensures r.Err? <==> file.NotAnObject?
      ensures r.Err? ==> r.message == LoadOutcome(file).message
      ensures r.Ok? ==> fresh(r.value) && r.value.Current() == LoadedSections(file)
      ensures r.Ok? ==> r.value.configPath == if configPathArg.Some? then configPathArg.value
                                              else Child(ConfigDir(system, env, home), "config.json")
    {
      var path := if configPathArg.Some? then configPathArg.value
                  else Child(ConfigDir(system, env, home), "config.json");
      var outcome := LoadOutcome(file);
      if outcome.Err? {
        return Err(outcome.message);
      }
      var c := new Config(path);
      var s := outcome.value;
      c.general, c.audio, c.transcription := s.general, s.audio, s.transcription;
      c.hotkey, c.ui, c.feedback, c.history := s.hotkey, s.ui, s.feedback, s.history;
      return Ok(c);
    }

    /** `save()`: returns the sections written as JSON to `configPath` (the write itself is I/O). */
    method Save() returns (written: Sections)
      ensures written == Current()
    {
      written := Current();
    }

    /** `reset_to_defaults()`: every section replaced by a fresh default, then saved. */
    method ResetToDefaults() returns (written: Sections)
      modifies this
      ensures Current() == DefaultSections && written == DefaultSections
      ensures configPath == old(configPath)
    {
      general := DefaultGeneral;
      audio := DefaultAudio;
      transcription := DefaultTranscription;
      hotkey := DefaultHotkey;
      ui := DefaultUI;
      feedback := DefaultFeedback;
      history := DefaultHistory;
      written := Save();
    }
  }

  /** Properties of the models on offer. */
  datatype ModelInfo = ModelInfo(sizeMb: int, vramGb: int, relativeSpeed: int, englishOnly: bool)

  const AvailableModels: map<string, ModelInfo> := map[
    "tiny.en" := ModelInfo(75, 1, 32, true),
    "base.en" := ModelInfo(145, 1, 16, true),
    "small.en" := ModelInfo(488, 2, 6, true),
    "medium.en" := ModelInfo(1530, 5, 2, true),
    "turbo" := ModelInfo(1600, 6, 8, false),
    "large-v3" := ModelInfo(3100, 10, 1, false)
  ]

  /** Exactly the `.en` models are flagged English-only. */
  lemma EnglishOnlyModels()
    ensures forall n :: n in AvailableModels ==>
              (AvailableModels[n].englishOnly <==> |n| >= 3 && n[|n| - 3..] == ".en")
  {
    forall n | n in AvailableModels
      ensures AvailableModels[n].englishOnly <==> |n| >= 3 && n[|n| - 3..] == ".en"
    {
      if n == "turbo" {
        assert n[|n| - 3..] == "rbo";
      } else if n == "large-v3" {
        assert n[|n| - 3..] == "-v3";
      } else {
        assert n in {"tiny.en", "base.en", "small.en", "medium.en"};
      }
    }
  }
}
