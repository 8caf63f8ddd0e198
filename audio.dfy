/**
 * The capture buffer and device selection of localwhisper/core/audio_engine.py.
 *
 * The sounddevice/pyaudio back ends are outside the model: the device table they
 * report is a parameter, and the stream callback that extends the buffer is the
 * method AppendChunk. Samples are opaque values.
 */
module Audio {
  import opened Wrappers
  import Configuration

  type Sample = real

  /** One entry of the back end's device table. */
  datatype RawDevice = RawDevice(name: string, maxInputChannels: int, defaultSampleRate: int)

  /** `AudioDevice`. */
  datatype AudioDevice = AudioDevice(index: nat, name: string, channels: int, sampleRate: int,
                                     isDefault: bool)

  function MakeDevice(index: nat, raw: RawDevice, defaultInput: int): AudioDevice {
    AudioDevice(index, raw.name, raw.maxInputChannels, raw.defaultSampleRate, index == defaultInput)
  }

  /** The devices `list_devices` reports for the table `raw`: the entries with input channels. */
  function InputDevices(raw: seq<RawDevice>, defaultInput: int): (r: seq<AudioDevice>)
    ensures |r| <= |raw|
    ensures forall k :: 0 <= k < |r| ==>
              r[k].index < |raw| && raw[r[k].index].maxInputChannels > 0
              && r[k] == MakeDevice(r[k].index, raw[r[k].index], defaultInput)
    ensures forall k, l :: 0 <= k < l < |r| ==> r[k].index < r[l].index
    decreases |raw|
  {
    if raw == [] then []
    else
      var n := |raw| - 1;
      var init := raw[..n];
      var r0 := InputDevices(init, defaultInput);
      assert forall k :: 0 <= k < |r0| ==> raw[r0[k].index] == init[r0[k].index];
      if raw[n].maxInputChannels > 0 then r0 + [MakeDevice(n, raw[n], defaultInput)] else r0
  }

  /** Every entry with an input channel is listed, at position `k`. */
  lemma {:induction false} InputDevicesComplete(raw: seq<RawDevice>, defaultInput: int, i: nat) returns (k: nat)
    requires i < |raw| && raw[i].maxInputChannels > 0
    ensures k < |InputDevices(raw, defaultInput)| && InputDevices(raw, defaultInput)[k].index == i
    decreases |raw|
  {
    var n := |raw| - 1;
    var r := InputDevices(raw, defaultInput);
    if i == n {
      k := |r| - 1;
    } else {
      var init := raw[..n];
      k := InputDevicesComplete(init, defaultInput, i);
      assert r[k] == InputDevices(init, defaultInput)[k];
    }
  }

  /** `list_devices`: the loop over the device table, appending each entry that has input channels. */
  method ListDevices(raw: seq<RawDevice>, defaultInput: int) returns (devices: seq<AudioDevice>)
    ensures devices == InputDevices(raw, defaultInput)
  {
    devices := [];
    var i := 0;
    while i < |raw|
      invariant 0 <= i <= |raw|
      invariant devices == InputDevices(raw[..i], defaultInput)
    {
      assert raw[..i + 1][..i] == raw[..i];
      if raw[i].maxInputChannels > 0 {
        devices := devices + [MakeDevice(i, raw[i], defaultInput)];
      }
      i := i + 1;
    }
    assert raw[..|raw|] == raw;
  }

  /** The choice of `get_default_device`: the first flagged device, else the first device. */
  function DefaultChoice(devices: seq<AudioDevice>): (r: Option<AudioDevice>)
    ensures r.None? <==> devices == []
    ensures (exists k :: 0 <= k < |devices| && devices[k].isDefault) ==>
              r.Some? && r.value.isDefault
              && exists k :: 0 <= k < |devices| && devices[k] == r.value
                             && forall j :: 0 <= j < k ==> !devices[j].isDefault
    ensures (forall k :: 0 <= k < |devices| ==> !devices[k].isDefault) && devices != [] ==>
              r == Some(devices[0])
  {
    FirstDefaultFrom(devices, 0)
  }

  function FirstDefaultFrom(devices: seq<AudioDevice>, i: nat): (r: Option<AudioDevice>)
    requires i <= |devices|
    ensures r.None? <==> devices == []
    ensures (exists k :: i <= k < |devices| && devices[k].isDefault) ==>
              r.Some? && r.value.isDefault
              && exists k :: i <= k < |devices| && devices[k] == r.value
                             && forall j :: i <= j < k ==> !devices[j].isDefault
    ensures (forall k :: i <= k < |devices| ==> !devices[k].isDefault) && devices != [] ==>
              r == Some(devices[0])
    decreases |devices| - i
  {
    if i == |devices| then (if devices == [] then None else Some(devices[0]))
    else if devices[i].isDefault then Some(devices[i])
    else FirstDefaultFrom(devices, i + 1)
  }

  /** `get_default_device` over the listed devices: the loop returning the first flagged one. */
  method GetDefaultDevice(devices: seq<AudioDevice>) returns (r: Option<AudioDevice>)
    ensures r == DefaultChoice(devices)
  {
    var i := 0;
    while i < |devices|
      invariant 0 <= i <= |devices|
      invariant FirstDefaultFrom(devices, i) == DefaultChoice(devices)
    {
      if devices[i].isDefault {
        return Some(devices[i]);
      }
      i := i + 1;
    }
    if devices == [] {
      return None;
    }
    return Some(devices[0]);
  }

  /** The index of the first listed device called `name`, if any. */
  function FirstNamed(devices: seq<AudioDevice>, name: string): (r: Option<nat>)
    ensures r.Some? ==>
              exists k :: 0 <= k < |devices| && devices[k].index == r.value && devices[k].name == name
                          && forall j :: 0 <= j < k ==> devices[j].name != name
    ensures r.None? ==> forall k :: 0 <= k < |devices| ==> devices[k].name != name
  {
    if devices == [] then None
    else if devices[0].name == name then Some(devices[0].index)
    else
      var r := FirstNamed(devices[1..], name);
      assert r.Some? ==> exists k :: 0 <= k < |devices[1..]| && devices[1..][k].index == r.value
                                     && devices[1..][k].name == name
                                     && forall j :: 0 <= j < k ==> devices[1..][j].name != name;
      if r.Some? then
        var k :| 0 <= k < |devices[1..]| && devices[1..][k].index == r.value && devices[1..][k].name == name
                 && forall j :: 0 <= j < k ==> devices[1..][j].name != name;
        assert devices[k + 1] == devices[1..][k];
        assert forall j :: 1 <= j < k + 1 ==> devices[j] == devices[1..][j - 1];
        r
      else
        assert forall k :: 1 <= k < |devices| ==> devices[k] == devices[1..][k - 1];
        r
  }

  /**
   * The device-by-name pick before a stream opens: a configured, non-empty name selects
   * the first listed device of that name, and otherwise the back end's default (`None`).
   */
  function Selected(devices: seq<AudioDevice>, inputDevice: Option<string>): Option<nat> {
    if inputDevice.Some? && inputDevice.value != "" then FirstNamed(devices, inputDevice.value) else None
  }

  /** The loop of `_start_sounddevice_recording` that looks the configured name up. */
  method SelectDevice(devices: seq<AudioDevice>, inputDevice: Option<string>) returns (index: Option<nat>)
    ensures index == Selected(devices, inputDevice)
  {
    index := None;
    if inputDevice.Some? && inputDevice.value != "" {
      var i := 0;
      while i < |devices|
        invariant 0 <= i <= |devices|
        invariant FirstNamed(devices[i..], inputDevice.value) == FirstNamed(devices, inputDevice.value)
      {
        if devices[i].name == inputDevice.value {
          return Some(devices[i].index);
        }
        assert devices[i..][1..] == devices[i + 1..];
        i := i + 1;
      }
    }
  }

  // ---------------------------------------------------------------- the bounded buffer

  /** What a `deque(maxlen=n)` keeps of `s`: its last `n` elements. */
  function LastN<T>(s: seq<T>, n: nat): (r: seq<T>)
    ensures |r| == if |s| <= n then |s| else n
    ensures forall i :: 0 <= i < |r| ==> r[i] == s[|s| - |r| + i]
  {
    if |s| <= n then s else s[|s| - n..]
  }

  /** Appending one element to a full deque drops the oldest. */
  lemma LastNStep<T>(s: seq<T>, x: T, n: nat)
    requires n > 0
    ensures var b := LastN(s, n);
            LastN(s + [x], n) == if |b| == n then b[1..] + [x] else b + [x]
  {
    if |s| >= n {
      var b := s[|s| - n..];
      assert (s + [x])[|s| + 1 - n..] == b[1..] + [x];
    }
  }

  /** One more element of the chunk, appended to the deque so far. */
  lemma ExtendStep(deque: seq<Sample>, chunk: seq<Sample>, i: nat, capacity: nat)
    requires 0 < capacity && i < |chunk|
    ensures var b := LastN(deque + chunk[..i], capacity);
            LastN(deque + chunk[..i + 1], capacity) == if |b| == capacity then b[1..] + [chunk[i]] else b + [chunk[i]]
  {
    LastNStep(deque + chunk[..i], chunk[i], capacity);
    assert deque + chunk[..i + 1] == deque + chunk[..i] + [chunk[i]];
  }

  /** `deque(maxlen=capacity).extend(chunk)`: one append at a time, each dropping the oldest when full. */
  method Extend(deque: seq<Sample>, chunk: seq<Sample>, capacity: nat) returns (r: seq<Sample>)
    requires 0 < capacity && |deque| <= capacity
    ensures r == LastN(deque + chunk, capacity)
  {
    r := deque;
    assert deque + chunk[..0] == deque;
    var i := 0;
    while i < |chunk|
      invariant 0 <= i <= |chunk|
      invariant r == LastN(deque + chunk[..i], capacity)
    {
      ExtendStep(deque, chunk, i, capacity);
      if |r| == capacity {
        r := r[1..] + [chunk[i]];
      } else {
        r := r + [chunk[i]];
      }
      i := i + 1;
    }
    assert chunk[..|chunk|] == chunk;
  }

  /** `samples`-slicing of `get_recent_audio`, with Python's meaning of a negative start. */
  function PySliceFrom<T>(s: seq<T>, start: int): (r: seq<T>)
    ensures |r| == if start >= 0 then (if start <= |s| then |s| - start else 0)
                   else (if -start <= |s| then -start else |s|)
    ensures forall i :: 0 <= i < |r| ==> r[i] == s[|s| - |r| + i]
  {
    if start >= 0 then s[if start <= |s| then start else |s|..]
    else s[if -start <= |s| then |s| + start else 0..]
  }

  /** `get_recent_audio` on a buffer, for `samples = int(seconds * sample_rate)`. */
  function RecentAudio(buffer: seq<Sample>, samples: int): (r: seq<Sample>)
    ensures samples > 0 ==> r == LastN(buffer, samples)
    ensures samples <= 0 ==> r == buffer[if -samples <= |buffer| then -samples else |buffer|..]
  {
    if |buffer| < samples then buffer else PySliceFrom(buffer, -samples)
  }

  /** For a positive count the result is the last `min(samples, len)` samples. */
  lemma RecentAudioPositive(buffer: seq<Sample>, samples: int)
    requires samples > 0
    ensures RecentAudio(buffer, samples) == LastN(buffer, samples)
  {
  }

  class AudioEngine {
    const sampleRate: nat
    /** `maxlen` of the deque: thirty seconds of audio. */
    const capacity: nat
    const inputDevice: Option<string>
    var buffer: seq<Sample>
    var isRecording: bool
    var isInitialized: bool
    /** The device index the open stream uses; `None` is the back end's default. */
    var streamDevice: Option<nat>

    ghost predicate Valid()
      reads this
    {
      sampleRate > 0 && capacity == 30 * sampleRate && |buffer| <= capacity
      && (isRecording ==> isInitialized)
    }

    /** `AudioEngine(settings)`: `None` settings mean the defaults. */
    constructor (settings: Option<Configuration.AudioSettings>)
      requires settings.None? || settings.value.sampleRate > 0
      ensures Valid()
      ensures sampleRate == (if settings.Some? then settings.value.sampleRate else 16000)
      ensures inputDevice == (if settings.Some? then settings.value.inputDevice else None)
      ensures buffer == [] && !isRecording && !isInitialized && streamDevice.None?
    {
      var s := if settings.Some? then settings.value else Configuration.DefaultAudio;
      sampleRate := s.sampleRate;
      capacity := 30 * s.sampleRate;
      inputDevice := s.inputDevice;
      buffer := [];
      isRecording := false;
      isInitialized := false;
      streamDevice := None;
    }

    /** `initialize`: idempotent; fails when the back end lists no input device. */
    method Initialize(devices: seq<AudioDevice>) returns (r: Result<()>)
      modifies this
      ensures old(isInitialized) ==> r.Ok? && isInitialized
      ensures !old(isInitialized) && devices == [] ==>
                r == Err("No audio input devices found.") && !isInitialized
      ensures !old(isInitialized) && devices != [] ==> r.Ok? && isInitialized
      ensures buffer == old(buffer) && isRecording == old(isRecording) && streamDevice == old(streamDevice)
    {
      if isInitialized {
        return Ok(());
      }
      if devices == [] {
        return Err("No audio input devices found.");
      }
      isInitialized := true;
      return Ok(());
    }

    /**
     * `start_recording`: a no-op while recording; otherwise initialises if needed,
     * clears the buffer, marks recording and opens the stream on the picked device.
     */
    method StartRecording(devices: seq<AudioDevice>) returns (r: Result<()>)
      requires Valid()
      modifies this
      ensures Valid()
      ensures old(isRecording) ==> r.Ok? && buffer == old(buffer) && isRecording
                                   && streamDevice == old(streamDevice)
      ensures !old(isRecording) && !old(isInitialized) && devices == [] ==>
                r.Err? && buffer == old(buffer) && !isRecording && !isInitialized
      ensures old(isInitialized) || devices != [] ==> r.Ok?
      ensures r.Ok? ==> isRecording && isInitialized
      ensures r.Ok? && !old(isRecording) ==> buffer == []
      ensures r.Ok? && !old(isRecording) ==> streamDevice == Selected(devices, inputDevice)
      ensures old(isInitialized) ==> isInitialized
    {
      if isRecording {
        return Ok(());
      }
      if !isInitialized {
        r := Initialize(devices);
        if r.Err? {
          return;
        }
      }
      buffer := [];
      isRecording := true;
      streamDevice := SelectDevice(devices, inputDevice);
      return Ok(());
    }

    /** The stream callback: `deque.extend`, one sample at a time, each dropping the oldest when full. */
    method AppendChunk(chunk: seq<Sample>)
      requires Valid()
      modifies this
      ensures Valid()
      ensures buffer == LastN(old(buffer) + chunk, capacity)
      ensures isRecording == old(isRecording) && isInitialized == old(isInitialized)
      ensures streamDevice == old(streamDevice)
    {
      buffer := Extend(buffer, chunk, capacity);
    }

    /**
     * `stop_recording`: when not recording, an empty result and no change; otherwise the
     * buffered samples in order, leaving the buffer empty and recording off.
     */
    method StopRecording() returns (audio: seq<Sample>)
      requires Valid()
      modifies this
      ensures Valid()
      ensures !old(isRecording) ==> audio == [] && buffer == old(buffer) && streamDevice == old(streamDevice)
      ensures old(isRecording) ==> audio == old(buffer) && buffer == [] && streamDevice.None?
      ensures !isRecording && isInitialized == old(isInitialized)
    {
      if !isRecording {
        return [];
      }
      isRecording := false;
      streamDevice := None;
      audio := buffer;
      buffer := [];
    }

    /** `get_current_audio`: a copy of the buffer; nothing changes. */
    method GetCurrentAudio() returns (audio: seq<Sample>)
      ensures audio == buffer
    {
      audio := buffer;
    }

    /** `get_recent_audio`, given `samples = int(seconds * sample_rate)`; nothing changes. */
    method GetRecentAudio(samples: int) returns (audio: seq<Sample>)
      ensures audio == RecentAudio(buffer, samples)
      ensures samples > 0 ==> audio == LastN(buffer, samples)
    {
      if samples > 0 {
        RecentAudioPositive(buffer, samples);
      }
      var bufferList := buffer;
      if |bufferList| < samples {
        return bufferList;
      }
      audio := PySliceFrom(bufferList, -samples);
    }

    /** `buffer_duration`: seconds of audio held, never more than thirty. */
    function BufferDuration(): (r: real)
      requires Valid()
      reads this
      ensures r * sampleRate as real == |buffer| as real
      ensures 0.0 <= r <= 30.0
    {
      |buffer| as real / sampleRate as real
    }
  }

  /** A stream delivering 25 s and then 10 more seconds keeps only the newest 30 s. */
  method OverflowScenario(first: seq<Sample>, second: seq<Sample>) {
    var engine := new AudioEngine(None);
    var dev := AudioDevice(0, "mic", 1, 16000, true);
    assert engine.capacity == 480000;
    var started := engine.StartRecording([dev]);
    assert started.Ok?;
    if |first| == 400000 && |second| == 160000 {
      engine.AppendChunk(first);
      var held := engine.buffer;
      assert held == first;
      engine.AppendChunk(second);
      assert |held + second| == 560000;
      assert (held + second)[|held + second| - 1] == second[|second| - 1];
      assert |engine.buffer| == 480000;
      assert engine.buffer[|engine.buffer| - 1] == second[|second| - 1];
      var audio := engine.StopRecording();
      assert |audio| == 480000 && engine.buffer == [];
    }
  }

  // ---------------------------------------------------------------- get_recent_audio(0)

  /**
   * As written, a request that rounds to zero samples returns the whole buffer, because
   * `buffer_list[-0:]` is `buffer_list[0:]`.
   */
  lemma RecentAudioZeroIsWholeBuffer(buffer: seq<Sample>)
    ensures RecentAudio(buffer, 0) == buffer
  {
  }

  /** The evidently intended "most recent `samples` samples": none for a count of zero or less. */
  function IntendedRecentAudio(buffer: seq<Sample>, samples: int): (r: seq<Sample>)
    ensures |r| == if samples <= 0 then 0 else if samples <= |buffer| then samples else |buffer|
    ensures forall i :: 0 <= i < |r| ==> r[i] == buffer[|buffer| - |r| + i]
  {
    var n: nat := if samples <= 0 then 0 else samples;
    assert n == 0 ==> LastN(buffer, n) == [];
    LastN(buffer, n)
  }

  /** The two agree on every positive count and differ on zero for a non-empty buffer. */
  lemma IntendedAgreesOnPositive(buffer: seq<Sample>, samples: int)
    ensures samples > 0 ==> IntendedRecentAudio(buffer, samples) == RecentAudio(buffer, samples)
    ensures buffer != [] ==> IntendedRecentAudio(buffer, 0) != RecentAudio(buffer, 0)
  {
    if samples > 0 {
      RecentAudioPositive(buffer, samples);
    }
  }
}
