# LocalWhisper core, modelled in Dafny

LocalWhisper is a desktop dictation tool. A global hotkey toggles recording. Microphone audio
collects in a bounded buffer. Stopping hands the segment to a Whisper speech-to-text model. The
transcript is then typed or pasted into the focused window, and a copy goes to a local SQLite
history. This project models that core and proves properties of the model:

- `Hotkey` (`hotkey.dfy`): parsing and printing hotkey strings such as `ctrl+shift+r`, key-event
  matching, the press/hold/release state machine of the hotkey manager, the conflict table and
  validation.
- `Audio` (`audio.dfy`): input-device filtering and the default-device choice; the audio engine
  as a class whose buffer keeps the most recent 30 seconds; start, stop and the buffer queries.
- `App` (`app.dfy`): the application controller. Its recording and processing flags are driven by
  the toggle, it dispatches segments for transcription, and it handles the outcomes.
- `Transcription` (`transcription.dfy`): device and compute-type detection, the English-model
  rewrite, the model load state, assembling a transcription result, and streaming accumulation.
- `History` (`history.dfy`): the history table as a sequence of rows in id order, with add, get,
  recent, date-range, delete, retention cleanup, maximum-count enforcement and clearing. Also the
  duration formatting.
- `Configuration` (`config.dfy`): the platform directories, the settings defaults, loading with
  a default fallback, saving and resetting.
- `TextInjection` (`injection.dfy`): the injection guard, the clipboard-then-keyboard fallback,
  the platform clipboard chain and the PowerShell escaping.
- `Text` and `Wrappers`: the Python string operations the core relies on, and `Option`/`Result`.

Things outside the program are parameters:

- the platform name (`system`: `"Windows"`, `"Darwin"` or anything else, as `platform.system()`
  reports it);
- environment variables and the home directory;
- the current time (`now`);
- the devices the audio back end lists;
- whether CUDA is available and the GPU memory query;
- whether the model loads (`LoadOutcome`);
- the Whisper decoder itself (a function from model and audio to segments);
- the exit code of each clipboard command (`Runner`);
- whether the native clipboard, paste and keyboard calls succeed.

Each stateful class of the source is a Dafny `class`. Its methods carry `modifies` clauses, and
their `ensures` give the whole new state in terms of the old one. Pure helpers are functions with
lemmas about them.

Where the tests and the code disagree, the model follows the code. Two examples:

- The configuration tests expect the activation key to default to `ctrl+alt+r` or `alt+s`. The
  code defaults to `ctrl+shift`. The parser rejects that default because it has no primary key.
- History entries are stored with a duration of 0. The controller reads the audio buffer's length
  after stopping the recording has already emptied it.

## Model

| member | source | states |
|---|---|---|
| Configuration.ConfigDir | localwhisper/core/config.py:15-25 | the config dir ends in the app folder; on Windows its base is `APPDATA` or the home; on macOS it is `~/Library/Application Support/LocalWhisper`; elsewhere it is `XDG_CONFIG_HOME` or `~/.config` |
| Configuration.WindowsLocalBase | localwhisper/core/config.py:31-33 | the Windows data base is `LOCALAPPDATA`, else `APPDATA`, else the home |
| Configuration.DataDir | localwhisper/core/config.py:28-38 | the data dir ends in the app folder; Windows uses the local base; macOS uses `~/Library/Application Support/LocalWhisper`; other systems use `XDG_DATA_HOME` or `~/.local/share` |
| Configuration.CacheDir | localwhisper/core/config.py:41-51 | the cache dir is `<app folder>/models`; on macOS it is `~/Library/Caches/LocalWhisper/models`; elsewhere it is `XDG_CACHE_HOME` or `~/.cache` |
| Configuration.WindowsCacheInsideData | localwhisper/core/config.py:31-33 | on Windows the cache dir is the data dir plus `models` |
| Configuration.DarwinConfigIsData | localwhisper/core/config.py:21-22 | on macOS the config and data dirs coincide, and the cache dir is not inside them |
| Configuration.XdgFallbacks | localwhisper/core/config.py:23-51 | with no XDG variables set, the three dirs fall back to `~/.config`, `~/.local/share` and `~/.cache` |
| Configuration.DefaultCapture | localwhisper/core/config.py:55-116 | the default chunk is a tenth of the 16 kHz sample rate, the default input device is unset, and history keeps 30 days and at most 10000 entries |
| Configuration.DefaultHotkeyDiffersFromTests | localwhisper/core/config.py:78-82 | the default activation key is neither `ctrl+alt+r` nor `alt+s` |
| Configuration.EnvGet | localwhisper/core/config.py:19 | `os.environ.get` gives the variable's value when it is set, else the default |
| Configuration.LoadedSections | localwhisper/core/config.py:144-171 | a missing or unparsable file, or one whose JSON is not an object, gives all defaults; each of the seven sections present in the file is taken, and each missing one defaults |
| Configuration.LoadOutcome | localwhisper/core/config.py:148-165 | loading fails exactly when the file's JSON is not an object, with the `AttributeError` of `.get` on that type; otherwise it gives the loaded sections |
| Configuration.ListFileRaises | localwhisper/core/config.py:154-165 | a file holding `[]` raises `'list' object has no attribute 'get'`, while a corrupted file falls back to the defaults |
| Configuration.SaveLoadRoundTrip | localwhisper/core/config.py:173-188 | loading what was saved gives back the same seven sections |
| Configuration.Config.Load | localwhisper/core/config.py:144-171 | fails exactly when the file's JSON is not an object, with the `AttributeError` text; otherwise a new configuration holds the sections read from the file, and the path defaults to `config.json` in the config dir |
| Configuration.Config.Save | localwhisper/core/config.py:173-188 | the saved sections are exactly the current ones |
| Configuration.Config.ResetToDefaults | localwhisper/core/config.py:190-198 | every section becomes its default, and the path is unchanged |
| Configuration.EnglishOnlyModels | localwhisper/core/config.py:222-259 | the models marked English-only are exactly the `.en` ones |
| Hotkey.NormalizeModifier | localwhisper/core/hotkey_manager.py:49-55 | `cmd`, `win` and `meta` become the platform's super key, and `control` becomes `ctrl` |
| Hotkey.Tokens | localwhisper/core/hotkey_manager.py:42 | splitting gives at least one part, none containing `+` |
| Hotkey.ParsePartsKey | localwhisper/core/hotkey_manager.py:48-60 | no key remains exactly when every part is a modifier name; otherwise the key is the last part that is not a modifier |
| Hotkey.ParsePartsModifiers | localwhisper/core/hotkey_manager.py:48-55 | the modifier set is exactly the normalised modifier parts, with duplicates collapsed |
| Hotkey.Parse | localwhisper/core/hotkey_manager.py:32-62 | a string without a key fails with `Invalid hotkey: <string> - no key specified`; a parsed key is one of the parts, is not a modifier name and holds no `+` |
| Hotkey.FromString | localwhisper/core/hotkey_manager.py:32-62 | the loop over the parts computes the parse result |
| Hotkey.ParseAccepts | localwhisper/core/hotkey_manager.py:56-62 | parsing succeeds exactly when some part is not a modifier, and then yields that key and those modifiers |
| Hotkey.ParseIgnoresCase | localwhisper/core/hotkey_manager.py:42 | lowercasing the input changes neither acceptance nor the combo |
| Hotkey.ParseIgnoresSpace | localwhisper/core/hotkey_manager.py:42 | removing a space changes neither acceptance nor the combo |
| Hotkey.ParseAltS | localwhisper/core/hotkey_manager.py:32-62 | `alt+s` parses to the combo with modifier alt and key s |
| Hotkey.ParseControlAlias | localwhisper/core/hotkey_manager.py:51-52 | `control+c` parses to ctrl with key c |
| Hotkey.DefaultHotkeyRejected | localwhisper/core/hotkey_manager.py:59-60 | the shipped default `ctrl+shift` is rejected as having no key |
| Hotkey.ParseCollapses | localwhisper/core/hotkey_manager.py:48-57 | `ctrl+control+a+b` collapses to one ctrl, with the last key b |
| Hotkey.ParseSuperAliases | localwhisper/core/hotkey_manager.py:53-54 | `meta+win+x` gives the platform's single super key |
| Hotkey.SortedModifierNames | localwhisper/core/hotkey_manager.py:66 | the printed modifiers are exactly the names of the combo's modifiers |
| Hotkey.SortedModifierNamesSorted | localwhisper/core/hotkey_manager.py:66 | the printed modifiers are in strictly increasing lexicographic order |
| Hotkey.ToStringSingle | localwhisper/core/hotkey_manager.py:64-67 | alt with s prints as `alt+s` |
| Hotkey.ToStringSorted | localwhisper/core/hotkey_manager.py:64-67 | ctrl and shift with r print as `ctrl+shift+r`, modifiers in sorted order |
| Hotkey.ToString | localwhisper/core/hotkey_manager.py:64-67 | a combo without modifiers prints as its key alone |
| Hotkey.ToStringSplits | localwhisper/core/hotkey_manager.py:64-67 | splitting the printed form at `+` gives the sorted modifier names followed by the key, for a key without `+` |
| Hotkey.RoundTrip | localwhisper/core/hotkey_manager.py:32-67 | parsing the printed form of a normalised combo (lowercase key that is not a modifier and has no `+` or space) gives back the combo |
| Hotkey.IsPrintable | localwhisper/core/hotkey_manager.py:87 | an ASCII character is printable exactly when it is not a control character (below space, or DEL); U+0080 to U+00A0 are not printable |
| Hotkey.MatchesKey | localwhisper/core/hotkey_manager.py:69-92 | a key event with a name matches exactly when the name equals the key, ignoring case |
| Hotkey.LetterKeyMatches | localwhisper/core/hotkey_manager.py:76-89 | a virtual-key code or a printable character for the letter or digit of the key matches |
| Hotkey.NamedKeyMatches | localwhisper/core/hotkey_manager.py:72-73 | a named key event whose name equals the key matches |
| Hotkey.ModifierOfKey | localwhisper/core/hotkey_manager.py:194-207 | the `alt`, `ctrl` and `shift` keys (plain, `_l` and `_r`) give their modifier, the `cmd` keys give `cmd` on macOS and `win` elsewhere, and every other key gives none |
| Hotkey.HotkeyManager.Create | localwhisper/core/hotkey_manager.py:102-127 | construction fails exactly when the string does not parse, with the parser's message; otherwise the manager holds the parsed combo and the platform, is stopped and inactive with no modifiers held and activation time 0, and has the given callbacks |
| Hotkey.HotkeyManager.Start | localwhisper/core/hotkey_manager.py:166-179 | starting while running changes nothing; otherwise it empties the held modifiers, deactivates and runs |
| Hotkey.HotkeyManager.Stop | localwhisper/core/hotkey_manager.py:181-192 | stopping while stopped changes nothing; otherwise it stops, deactivates and empties the held modifiers |
| Hotkey.HotkeyManager.SetHotkey | localwhisper/core/hotkey_manager.py:132-146 | a valid string replaces the combo and keeps the running flag; an invalid one keeps the combo but leaves the manager stopped |
| Hotkey.HotkeyManager.SetCallbacks | localwhisper/core/hotkey_manager.py:148-164 | a callback passed as none is left unchanged |
| Hotkey.HotkeyManager.HandlePress | localwhisper/core/hotkey_manager.py:209-228 | a modifier press only adds it to the held set; pressing the key activates, records the time and fires `on_press` once, and only if the held set equals the combo's modifiers and the manager was inactive |
| Hotkey.HotkeyManager.TriggerRelease | localwhisper/core/hotkey_manager.py:245-261 | a release under 0.15 s after activation changes nothing; at or after 0.15 s it deactivates, resets the time to 0 and fires `on_release` once |
| Hotkey.HotkeyManager.HandleRelease | localwhisper/core/hotkey_manager.py:230-243 | a modifier release only removes it from the held set and never ends an activation; releasing the key at least 0.15 s after activation deactivates and fires `on_release` once, and an earlier release changes nothing |
| Hotkey.CheckHotkeyConflict | localwhisper/core/hotkey_manager.py:289-319 | a warning comes back exactly when the lowercased, space-free string is in the conflict table, and it is that entry's text |
| Hotkey.ConflictIgnoresCaseAndSpace | localwhisper/core/hotkey_manager.py:314-316 | case and spaces do not affect whether a conflict is reported |
| Hotkey.ConflictCheckIsTextual | localwhisper/core/hotkey_manager.py:314-318 | `ctrl+c` conflicts but `c+ctrl`, which parses to the same combo, does not |
| Hotkey.ValidateHotkey | localwhisper/core/hotkey_manager.py:321-338 | blank input is reported as empty before parsing; otherwise there is no error exactly when the string parses, and a parse error's message is returned |
| Audio.InputDevices | localwhisper/core/audio_engine.py:130-170 | only devices with input channels are kept, in index order, and flagged default exactly when their index is the default input |
| Audio.InputDevicesComplete | localwhisper/core/audio_engine.py:143-151 | every raw device with input channels appears in the list |
| Audio.ListDevices | localwhisper/core/audio_engine.py:130-170 | the loop builds exactly the filtered list |
| Audio.DefaultChoice | localwhisper/core/audio_engine.py:172-178 | the first flagged device, else the first device, else none |
| Audio.GetDefaultDevice | localwhisper/core/audio_engine.py:172-178 | the loop returns the default choice |
| Audio.FirstNamed | localwhisper/core/audio_engine.py:220-223 | a hit is the index of the first device with that name, and no hit means no device has it |
| Audio.SelectDevice | localwhisper/core/audio_engine.py:217-223 | the loop picks nothing when no name is configured (or it is empty), and otherwise the first device with that name |
| Audio.LastN | localwhisper/core/audio_engine.py:237 | the bounded buffer keeps the last `n` samples in order |
| Audio.LastNStep | localwhisper/core/audio_engine.py:237 | appending one sample to a full buffer drops exactly the oldest |
| Audio.Extend | localwhisper/core/audio_engine.py:237 | extending sample by sample equals keeping the last `capacity` of the concatenation |
| Audio.PySliceFrom | localwhisper/core/audio_engine.py:366 | Python's `s[start:]`: a suffix of `len - start` elements for a non-negative start, and of `-start` elements (at most all) for a negative one |
| Audio.RecentAudio | localwhisper/core/audio_engine.py:352-367 | a positive count gives the last `min(n, len)` samples; a count of 0 or less drops the first `-n` samples, so 0 gives the whole buffer |
| Audio.RecentAudioPositive | localwhisper/core/audio_engine.py:352-367 | for a positive count the recent audio is the last `min(n, len)` samples |
| Audio.AudioEngine.constructor | localwhisper/core/audio_engine.py:66-93 | the buffer starts empty, with capacity 30 times the sample rate, not recording and not initialised |
| Audio.AudioEngine.Initialize | localwhisper/core/audio_engine.py:106-118 | initialising is idempotent and fails with the no-microphone error exactly when first run with no input device |
| Audio.AudioEngine.StartRecording | localwhisper/core/audio_engine.py:198-223 | while recording nothing changes; otherwise it initialises if needed, empties the buffer, records, and opens the stream on the selected device (the first with the configured name, else the default) |
| Audio.AudioEngine.AppendChunk | localwhisper/core/audio_engine.py:225-258 | the buffer becomes the last `capacity` samples of the old buffer plus the chunk |
| Audio.AudioEngine.StopRecording | localwhisper/core/audio_engine.py:314-341 | when not recording it returns nothing and changes nothing; otherwise it returns the buffer in order and empties it |
| Audio.AudioEngine.GetCurrentAudio | localwhisper/core/audio_engine.py:343-350 | returns the buffer unchanged |
| Audio.AudioEngine.GetRecentAudio | localwhisper/core/audio_engine.py:352-367 | returns the Python slice `[-n:]` of the buffer, which is the last `n` samples when `n` is positive |
| Audio.AudioEngine.BufferDuration | localwhisper/core/audio_engine.py:373-376 | the duration times the sample rate is the buffer length, at most 30 s |
| Audio.RecentAudioZeroIsWholeBuffer | localwhisper/core/audio_engine.py:366 | a request for 0 samples returns the whole buffer |
| Audio.IntendedRecentAudio | localwhisper/core/audio_engine.py:352-367 | the last `min(n, len)` samples, and none for `n <= 0` |
| Audio.IntendedAgreesOnPositive | localwhisper/core/audio_engine.py:352-367 | the intended and as-written queries agree for positive counts and differ at 0 on a non-empty buffer |
| App.BindKeywords | localwhisper/app.py:88-91 | keyword binding succeeds exactly when every keyword passed is a declared parameter; otherwise the `TypeError` text `<callee>() got an unexpected keyword argument '<k>'` names the first keyword in call order that is not |
| App.FirstUndeclaredShift | localwhisper/app.py:88-91 | after a declared first keyword, the first undeclared keyword of the rest is the first of the whole call |
| App.BuildHotkey | localwhisper/app.py:88-91 | a binding error aborts, otherwise the result is the parse of the activation key |
| App.StartupAlwaysFails | localwhisper/app.py:88-91 | as written, building the hotkey manager fails with `HotkeyManager.__init__() got an unexpected keyword argument 'on_toggle'` whatever key is configured |
| App.CorrectedStartupParses | localwhisper/core/hotkey_manager.py:102-107 | passing the toggle as `on_press` reduces startup to parsing the key, which still fails for the default `ctrl+shift` |
| App.LocalWhisperApp.OnRecordingStarted | localwhisper/app.py:166-184 | the flags become recording and not processing, and the engine records with an unchanged empty buffer once a device exists |
| App.LocalWhisperApp.OnRecordingStopped | localwhisper/app.py:186-224 | when not recording nothing changes; otherwise recording stops, and a segment of at least 1600 samples is dispatched once with processing set, while a shorter one returns to idle |
| App.LocalWhisperApp.ToggleRecording | localwhisper/app.py:276-287 | ignored while processing; otherwise it stops when recording and starts when idle, so at most one segment is dispatched; recording and processing are never both set |
| App.LocalWhisperApp.OnAudioChunk | localwhisper/core/audio_engine.py:225-237 | only an open stream appends, and then keeps the last 30 s |
| App.Seconds | localwhisper/app.py:250 | a sample count divided by 16000 is never negative, and is zero exactly for no samples |
| App.LocalWhisperApp.OnTranscriptionComplete | localwhisper/app.py:226-254 | processing is cleared; blank text skips injection and history; otherwise the text is injected and stored, with duration 0 when a segment was processing |
| App.LocalWhisperApp.OnTranscriptionError | localwhisper/app.py:256-274 | processing is cleared and the error is shown; nothing is injected or stored |
| App.LocalWhisperApp.OnErrorTimeout | localwhisper/app.py:268-270 | the tray returns to idle and nothing else changes |
| Transcription.DetectDevice | localwhisper/core/transcription_engine.py:104-119 | cuda exactly when CUDA is available, else cpu |
| Transcription.DetectComputeType | localwhisper/core/transcription_engine.py:121-136 | float16 exactly on cuda with a successful query of at least 8 GiB, else int8 |
| Transcription.DetectComputeConfig | localwhisper/core/transcription_engine.py:85-102 | an explicit device or compute type is kept verbatim, and only `auto` is detected |
| Transcription.DefaultsWithoutGpu | localwhisper/core/transcription_engine.py:85-136 | the default settings without CUDA give cpu and int8 |
| Transcription.DefaultsWithGpu | localwhisper/core/transcription_engine.py:85-136 | the default settings with CUDA give cuda, with float16 exactly at 8 GiB or more |
| Transcription.ActualModelName | localwhisper/core/transcription_engine.py:174-178 | for English, tiny/base/small/medium gain `.en`; every other name is unchanged |
| Transcription.ActualModelNames | localwhisper/core/transcription_engine.py:174-178 | a rewritten name is an available English-only model, and an available name is never rewritten |
| Transcription.RequestedName | localwhisper/core/transcription_engine.py:163 | an empty or missing name falls back to the configured model |
| Transcription.SegmentConfidence | localwhisper/core/transcription_engine.py:280 | a segment's confidence is its probability, or 0.5 when the log-probability is 0 |
| Transcription.MeanConfidence | localwhisper/core/transcription_engine.py:290 | no segments give 0 |
| Transcription.TotalConfidenceBounds | localwhisper/core/transcription_engine.py:274-281 | with probabilities in [0, 1], the total is between 0 and the segment count |
| Transcription.MeanConfidenceBounds | localwhisper/core/transcription_engine.py:290 | the mean confidence lies in [0, 1] |
| Transcription.FullText | localwhisper/core/transcription_engine.py:289 | the text is the stripped concatenation and has no leading or trailing whitespace |
| Transcription.Assemble | localwhisper/core/transcription_engine.py:255-303 | the duration times 16000 is the sample count; text, language and confidence come from the segments; the result is not partial |
| Transcription.RunModel | localwhisper/core/transcription_engine.py:258-307 | a decoder error becomes `Transcription failed: ...`, and success is the assembled result |
| Transcription.StreamingResult | localwhisper/core/transcription_engine.py:341-348 | a non-final result is marked partial, and a final one is passed through |
| Transcription.TranscriptionEngine.constructor | localwhisper/core/transcription_engine.py:62-83 | settings default; device and compute type are the detected configuration; nothing is loaded and the stream is empty |
| Transcription.TranscriptionEngine.UnloadModel | localwhisper/core/transcription_engine.py:199-216 | no model and no name remain loaded, and the stream is kept |
| Transcription.TranscriptionEngine.LoadModel | localwhisper/core/transcription_engine.py:149-197 | the loaded name is a no-op; another name unloads first, then loads and records the requested name (not the `.en` one) or reports the load error |
| Transcription.TranscriptionEngine.Transcribe | localwhisper/core/transcription_engine.py:227-307 | loads first when nothing is loaded; then the result is the decoder run on the loaded model, or the load error |
| Transcription.TranscriptionEngine.TranscribeStreaming | localwhisper/core/transcription_engine.py:309-350 | the chunk is appended; under 8000 samples and not final gives none; otherwise it transcribes the whole stream, and a final call clears the stream and last text |
| Transcription.TranscriptionEngine.ResetStreaming | localwhisper/core/transcription_engine.py:352-355 | the stream and last text become empty, and the model is untouched |
| Transcription.StreamingAccumulates | localwhisper/core/transcription_engine.py:326-331 | the accumulated stream is the old stream followed by the chunk |
| History.FromRow | localwhisper/core/history_manager.py:43-54 | the entry carries the row's id, and converting it back gives the row |
| History.RowRoundTrip | localwhisper/core/history_manager.py:43-54 | converting a row to an entry and back is the identity |
| History.ToDict | localwhisper/core/history_manager.py:30-41 | the dictionary has exactly the seven keys, with a null id for an unsaved entry |
| History.DictRoundTrip | localwhisper/core/history_manager.py:30-41 | reading back the dictionary gives the entry |
| History.Filter | localwhisper/core/history_manager.py:361-364 | a `DELETE ... WHERE` keeps exactly the rows not matched, no more of them, and both the id order and a newest-first order |
| History.KeepFirst | localwhisper/core/history_manager.py:361-364 | putting the first row back before rows taken in order from the rest keeps the id order and the newest-first order |
| History.FilterMultiset | localwhisper/core/history_manager.py:361-364 | a filter keeps every copy of a matched row and none of an unmatched one |
| History.FilterPermuted | localwhisper/core/history_manager.py:303-332 | filtering two orderings of the same rows keeps the same number of rows |
| History.FilterCount | localwhisper/core/history_manager.py:341-345 | the number removed is the number of distinct rows matched |
| History.FindRow | localwhisper/core/history_manager.py:231-250 | a found row has that id, and none means no row has it |
| History.SortAsc | localwhisper/core/history_manager.py:260-264 | the rows ordered by timestamp (ties by id) are a permutation without duplicates |
| History.Newest | localwhisper/core/history_manager.py:260-264 | newest first is a descending permutation of the rows |
| History.Window | localwhisper/core/history_manager.py:262 | `LIMIT`/`OFFSET` skip the offset (negative as 0) and take at most the limit (negative as all) |
| History.Recent | localwhisper/core/history_manager.py:252-274 | at most `limit` rows of the table, newest first |
| History.RecentAreNewest | localwhisper/core/history_manager.py:252-274 | with no offset, no row left out is newer than one returned |
| History.NewestInRange | localwhisper/core/history_manager.py:303-332 | the in-range rows of the newest-first order are the in-range rows of the table, as many of them |
| History.DateRange | localwhisper/core/history_manager.py:303-332 | newest first, only rows with start <= timestamp <= end, exactly `min(limit, in-range count)` of them (all for a negative limit) |
| History.PrefixKeepsNewest | localwhisper/core/history_manager.py:309-328 | a prefix of a newest-first list holds no row older than one left out |
| History.DateRangeAreNewest | localwhisper/core/history_manager.py:303-332 | no in-range row left out by the limit is newer than one returned |
| History.Entries | localwhisper/core/history_manager.py:274 | one entry per row, in order, each converted from its row |
| History.Oldest | localwhisper/core/history_manager.py:381-389 | the `k` oldest rows are rows of the table |
| History.DropOldest | localwhisper/core/history_manager.py:381-392 | deleting the ids of the `k` oldest rows keeps exactly the other rows, in id order |
| History.RemoveOldestCount | localwhisper/core/history_manager.py:381-392 | deleting the `k` oldest ids removes exactly `k` rows |
| History.RemoveOldestKeepsNewer | localwhisper/core/history_manager.py:381-392 | every row kept is newer than every row deleted |
| History.Capped | localwhisper/core/history_manager.py:367-398 | enforcement keeps only rows of the table, in id order |
| History.CappedSize | localwhisper/core/history_manager.py:367-398 | enforcing a positive maximum leaves `min(count, max)` rows |
| History.CappedKeepsNewest | localwhisper/core/history_manager.py:367-398 | the rows kept by enforcement are the newest |
| History.HistoryManager.constructor | localwhisper/core/history_manager.py:67-80 | settings default, the stored rows are kept, and the manager is not yet opened |
| History.HistoryManager.Opened | localwhisper/core/history_manager.py:82-150 | the first use opens the connection and runs cleanup when history is enabled with positive retention |
| History.HistoryManager.Initialize | localwhisper/core/history_manager.py:82-150 | opening is idempotent and leaves the opened table |
| History.HistoryManager.Shutdown | localwhisper/core/history_manager.py:152-158 | closing keeps the rows and forgets the connection |
| History.HistoryManager.AddEntry | localwhisper/core/history_manager.py:175-229 | disabled history stores nothing and returns the fields with no id; otherwise one row with a fresh id is appended, at the given time or now |
| History.HistoryManager.GetEntry | localwhisper/core/history_manager.py:231-250 | an entry comes back exactly when a row has that id, and it is that row |
| History.HistoryManager.GetRecent | localwhisper/core/history_manager.py:252-274 | the newest rows after the offset, as entries |
| History.HistoryManager.GetByDateRange | localwhisper/core/history_manager.py:303-332 | the rows in the range, as entries |
| History.HistoryManager.DeleteEntry | localwhisper/core/history_manager.py:334-346 | reports whether the id existed and removes exactly the rows with it |
| History.HistoryManager.DeleteOlderThan | localwhisper/core/history_manager.py:357-365 | deletes exactly the rows older than the cutoff and returns how many went |
| History.HistoryManager.CleanupOldEntries | localwhisper/core/history_manager.py:348-365 | retention <= 0 removes nothing; otherwise exactly the rows older than the cutoff go, and their count is returned |
| History.HistoryManager.EnforceMaxEntries | localwhisper/core/history_manager.py:367-398 | a maximum <= 0, or a count within it, removes nothing; otherwise the oldest `count - max` rows go |
| History.HistoryManager.ClearAll | localwhisper/core/history_manager.py:532-541 | returns the previous row count and leaves the table empty |
| History.AddedIsFound | localwhisper/core/history_manager.py:209-250 | a row appended with a fresh id is then found |
| History.DeleteRemovesOnlyThatId | localwhisper/core/history_manager.py:334-346 | after deleting an id it is absent, and every other row remains |
| History.ClockOf | localwhisper/core/history_manager.py:452-454 | hours, minutes under 60 and seconds under 60 recombine to the whole seconds |
| History.NatToStringValue | localwhisper/core/history_manager.py:457-461 | the decimal digits printed read back as the number |
| History.FormatDuration | localwhisper/core/history_manager.py:450-461 | the text ends in `s`; it has an hours part exactly from 3600 s, and a minutes part exactly from 60 s; split at spaces it has three, two or one parts, whose digits before `h`, `m` and `s` read back as the hours, minutes and seconds |
| History.NumberPart | localwhisper/core/history_manager.py:457-461 | `f"{n}{unit}"` is digits reading back as `n`, then the unit, with no space and no other unit letter |
| History.FormatSecondsOnly | localwhisper/core/history_manager.py:460-461 | 45 s prints as `45s` |
| History.FormatMinutes | localwhisper/core/history_manager.py:452-459 | 125.5 s prints as `2m 5s` |
| History.FormatHours | localwhisper/core/history_manager.py:452-457 | 3725 s prints as `1h 2m 5s` |
| TextInjection.PsEscape | localwhisper/core/text_injector.py:210 | text without backtick, quote or dollar is unchanged |
| TextInjection.PsEscapeIsPerCharacter | localwhisper/core/text_injector.py:210 | the chain of three replacements prefixes each backtick, quote and dollar with one backtick |
| TextInjection.PsEscapeCode | localwhisper/core/text_injector.py:217-218 | a backtick before any character other than Windows PowerShell's eight escape letters stands for that character |
| TextInjection.PsRead | localwhisper/core/text_injector.py:217-218 | a body of literal characters reads as itself, and a value read is never longer than the body |
| TextInjection.PsEscapeRoundTrip | localwhisper/core/text_injector.py:210 | for text without typographic quotes, PowerShell reads the escaped text back as the text |
| TextInjection.TypographicQuoteBreaks | localwhisper/core/text_injector.py:210 | as written, any text holding a typographic quote is not read back: the string ends at it |
| TextInjection.PsEscapeQuotesRoundTrip | localwhisper/core/text_injector.py:210 | with the typographic quotes escaped too, PowerShell reads back every text |
| TextInjection.PsEscapeQuotesAgrees | localwhisper/core/text_injector.py:210 | on text without typographic quotes the corrected escape equals the chain of the source |
| TextInjection.EscapedQuotesArePrefixed | localwhisper/core/text_injector.py:210 | every quote in the escaped text is preceded by a backtick |
| TextInjection.PowerShellCommand | localwhisper/core/text_injector.py:206-229 | the command sets the clipboard to the escaped text between quotes |
| TextInjection.FirstSuccess | localwhisper/core/text_injector.py:245-268 | the first command that exits 0, or none when no command does |
| TextInjection.SetClipboardLinux | localwhisper/core/text_injector.py:245-268 | succeeds exactly when some command exits 0, and tries the commands in order up to the first success |
| TextInjection.SetClipboardOther | localwhisper/core/text_injector.py:153-243 | macOS succeeds exactly when `pbcopy` exits 0; Windows uses the native API and falls back to PowerShell |
| TextInjection.ClipboardSet | localwhisper/core/text_injector.py:132-151 | dispatches by platform, with the Linux chain on any other system |
| TextInjection.SetClipboard | localwhisper/core/text_injector.py:132-151 | the method's outcome is the platform dispatch |
| TextInjection.PasteModifier | localwhisper/core/text_injector.py:109-122 | the paste chord is cmd+v on macOS and ctrl+v elsewhere |
| TextInjection.Inject | localwhisper/core/text_injector.py:71-75 | with the clipboard set, the outcome is the paste; otherwise the text is typed |
| TextInjection.TextInjector.InjectViaKeyboard | localwhisper/core/text_injector.py:270-288 | types the text and reports the keyboard outcome |
| TextInjection.TextInjector.InjectViaClipboard | localwhisper/core/text_injector.py:84-130 | sets the clipboard and pastes, falling back to typing when the clipboard fails |
| TextInjection.TextInjector.Deliver | localwhisper/core/text_injector.py:70-78 | the outcome and actions are those of one attempt in the current mode, and `on_complete` gets the text only on success |
| TextInjection.TextInjector.InjectText | localwhisper/core/text_injector.py:53-82 | blank text succeeds with no action; otherwise stripped text is injected, `on_complete` gets it only on success, and the typing flag ends false |
| TextInjection.TextInjector.SetUseClipboard | localwhisper/core/text_injector.py:319-326 | sets the injection method |
| TextInjection.InjectedTextIsStripped | localwhisper/core/text_injector.py:65-68 | text that passes the guard is stripped to non-empty text with no whitespace at either end |
| Text.Split | localwhisper/core/hotkey_manager.py:42 | `split` gives at least one part, none containing the separator, and joining them gives back the input |
| Text.StripEmptyIffBlank | localwhisper/core/text_injector.py:65 | stripping gives the empty string exactly when the text is all whitespace |
| Text.ReplaceRemoves | localwhisper/core/hotkey_manager.py:42 | replacing a character by nothing removes every occurrence |

## Worked examples

These methods apply the operations to concrete inputs, and the verifier proves each assertion
about the outcome. They have no row above.

- `Hotkey.HoldScenario`: for `ctrl+alt+r`, pressing r alone does nothing; with ctrl and alt held
  it fires `on_press` once, a repeated press and the early releases change nothing, and releasing
  r 0.2 s after activation fires `on_release`.
- `Audio.OverflowScenario`: 25 s and then 10 s of audio leave 30 s in the buffer, ending with the
  newest sample.
- `App.DictationScenario`: one second of audio is dispatched once, a toggle while processing is
  ignored, and the transcript `hello` is injected and stored with duration 0.
- `App.ShortTapScenario`: a 50 ms recording returns to idle without dispatching.
- `Transcription.StreamingScenario`: a first half second of audio gives nothing; the second one
  loads the default model and gives a partial result; the final call gives a complete one.
- `History.HistoryScenario`: two entries get ids 1 and 2, the second is found, deleting id 1
  succeeds once, and clearing removes the one row left.

## Left out

- Unicode: `lower()` and `strip()` are modelled for ASCII letters and the ASCII whitespace characters only.
- Hotkey.IsPrintable: stands in for `str.isprintable` as "printable ASCII, or any character above U+00A0". It agrees with Python on ASCII and on U+0080 to U+00A0, but accepts the non-printable characters above U+00A0 (such as U+00AD, U+200B, U+2028 and U+3000), which Python rejects. The Unicode category table is not part of this model.
- Threads, locks, the pynput listener thread and Qt's queued signals. Each handler is one atomic method, and a signal emitted by `_toggle_recording` is a direct call to its handler.
- Floating point: samples are reals; `np.exp` of the log-probability is supplied by the decoder as the segment's probability; gain and amplitude callbacks are not modelled.
- Audio.AudioEngine.GetRecentAudio: takes the sample count `int(seconds * sample_rate)` directly rather than seconds.
- Audio.AudioEngine.constructor: requires a positive sample rate, which the source assumes without checking.
- The PyAudio and sounddevice back ends, stream callbacks other than buffer appends, `shutdown` of the engines and the amplitude callback.
- Transcription.TranscriptionEngine.Transcribe: takes 16 kHz audio; resampling from other rates and the progress callback are not modelled.
- The model download and cache paths (`get_model_path`, `is_model_downloaded`) and the faster-whisper import are inputs (`LoadOutcome`).
- History: SQLite and the file system are a sequence of rows; full-text `search`, `get_statistics`, the JSON/TXT/CSV exports and the ISO text encoding of timestamps are not modelled. Timestamps are whole seconds.
- History.HistoryManager.constructor: requires the stored rows to have increasing ids below the next id, as SQLite's autoincrement guarantees.
- TextInjector: `inject_text_async`, `type_text` and the sleep delays between keystrokes are not modelled; the native Windows clipboard call is one outcome.
- App: `initialize` is modelled only for its hotkey-manager step (`App.BuildHotkey`). Creating the other components, the tray, overlay, sounds, settings and history windows, `_on_settings_changed`, `_on_hotkey_changed`, `shutdown` and model preloading are UI and wiring.
- App.LocalWhisperApp.OnRecordingStarted: the audio engine's start error is not propagated. In the source `initialize` has already initialised the engine (localwhisper/app.py:82-83), so `start_recording` at localwhisper/app.py:183-184 cannot take its failing path; the model's engine may start uninitialised, and a failed start then leaves capture off. The sound and overlay are not modelled.
- TextInjection.PsRead: a reader of the body of a double-quoted string in Windows PowerShell 5.1, not the PowerShell parser. It reads backtick escapes (the eight control escapes and the literal ones) and stops at an unescaped straight or typographic quote, `$` or final backtick, without modelling the doubled-quote escape, variable expansion or subexpressions; the quoting of the argument between `subprocess.Popen` and `powershell.exe` is not modelled either.
- TextInjection.PsEscapeRoundTrip: holds only for text without typographic quotes; see Findings.
- Configuration.Config.Load: a file that cannot be opened or is not valid UTF-8 raises `OSError` or `UnicodeDecodeError`, which the handler does not catch either; the file's content is an input, so only the non-object `AttributeError` is modelled.
- Configuration: the JSON file is a `ConfigFile` value, and writing the file is the returned sections.

## Findings

| source | as written | input that shows it | evidently intended | confidence | as-written member | corrected member |
|---|---|---|---|---|---|---|
| localwhisper/core/audio_engine.py:352-367 | `get_recent_audio` slices the buffer with `[-samples:]`, and `-0` is `0` | `get_recent_audio(0)` (or any `seconds` below one sample) on a non-empty buffer returns the whole buffer | the last `min(n, len)` samples, so nothing for zero seconds | not executed; medium | Audio.RecentAudioZeroIsWholeBuffer | Audio.IntendedRecentAudio |
| localwhisper/core/config.py:154-165 | `load` calls `data.get` on whatever JSON the file holds, and catches only `JSONDecodeError`, `TypeError` and `KeyError` | a config file holding `[]` (or any JSON that is not an object): `AttributeError: 'list' object has no attribute 'get'` escapes `load` | fall back to the defaults, as for a corrupted file | not executed; high | Configuration.ListFileRaises | Configuration.LoadedSections |
| localwhisper/core/text_injector.py:210 | the escape chain prefixes only backtick, `"` and `$`, but PowerShell also delimits strings with the typographic quotes U+201C, U+201D and U+201E | clipboard text `say “hi”` on the PowerShell fallback: the string ends at `“`, so the clipboard does not receive the text | every character PowerShell takes as a double quote escaped with a backtick | not executed; medium | TextInjection.TypographicQuoteBreaks | TextInjection.PsEscapeQuotesRoundTrip |
| localwhisper/app.py:88-91 | the hotkey manager is built with the keyword `on_toggle`, which its constructor (localwhisper/core/hotkey_manager.py:102-107) does not declare | any configuration: the call raises `TypeError`, so `initialize` reports failure | the toggle passed as `on_press` | not executed; high | App.StartupAlwaysFails | App.CorrectedStartupParses |
