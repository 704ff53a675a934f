/**
 * Audio capture bookkeeping: the device list and its case-insensitive
 * first-match lookup with a fixed preference order, the bounded non-blocking
 * chunk buffer that drops and counts on overflow, and the capture system's
 * lifecycle flags and counters.
 *
 * The sound hardware is not modelled: the device list is a field, the
 * system's default device name and the success of opening a stream are
 * parameters, and the clock is a `now` parameter.
 */
module Capture {
  import opened Common
  import Text

  datatype AudioDevice = AudioDevice(index: int, name: string, channels: int, sampleRate: real, isInput: bool, isOutput: bool)

  /** `pattern.lower() in device.name.lower()`. */
  predicate NameMatches(d: AudioDevice, pattern: string)
  {
    Text.Contains(Text.Lower(d.name), Text.Lower(pattern))
  }

  /** The first device, in list order, whose name matches `pattern`. */
  function FirstMatching(devices: seq<AudioDevice>, pattern: string): (r: Option<AudioDevice>)
    ensures r.Some? ==>
      exists i :: 0 <= i < |devices| && devices[i] == r.value && NameMatches(devices[i], pattern) && (forall j :: 0 <= j < i ==> !NameMatches(devices[j], pattern))
    ensures r.None? <==> forall i :: 0 <= i < |devices| ==> !NameMatches(devices[i], pattern)
  {
    if devices == [] then None
    else if NameMatches(devices[0], pattern) then
      assert 0 < |devices| && devices[0] == devices[0];
      Some(devices[0])
    else
      var r := FirstMatching(devices[1..], pattern);
      assert forall i :: 1 <= i < |devices| ==> devices[i] == devices[1..][i - 1];
      r
  }

  /** The input devices, in list order. */
  function InputDevices(devices: seq<AudioDevice>): (r: seq<AudioDevice>)
    ensures |r| <= |devices|
    ensures forall d :: d in r <==> d in devices && d.isInput
    ensures r != [] ==> exists i :: 0 <= i < |devices| && devices[i] == r[0] && forall j :: 0 <= j < i ==> !devices[j].isInput
  {
    if devices == [] then []
    else if devices[0].isInput then [devices[0]] + InputDevices(devices[1..])
    else
      var rest := InputDevices(devices[1..]);
      assert forall i :: 1 <= i < |devices| ==> devices[i] == devices[1..][i - 1];
      rest
  }

  /** The filter keeps list order: filtering a concatenation concatenates the filtered parts. */
  lemma {:induction false} InputDevicesConcat(a: seq<AudioDevice>, b: seq<AudioDevice>)
    ensures InputDevices(a + b) == InputDevices(a) + InputDevices(b)
  {
    if a != [] {
      assert (a + b)[1..] == a[1..] + b;
      InputDevicesConcat(a[1..], b);
    } else {
      assert a + b == b;
    }
  }

  /** A one-device list is kept exactly when that device is an input. */
  lemma InputDevicesSingle(d: AudioDevice)
    ensures InputDevices([d]) == if d.isInput then [d] else []
  {
    assert [d][1..] == [];
  }

  /** The names tried, in this order, before falling back to the default input device. */
  const PreferredPatterns: seq<string> := ["aggregate", "blackhole", "soundflower", "multi-output"]

  /** The first device matching `pattern` exists and is an input device. */
  predicate InputMatch(devices: seq<AudioDevice>, pattern: string)
  {
    FirstMatching(devices, pattern).Some? && FirstMatching(devices, pattern).value.isInput
  }

  /** The first pattern whose first match is an input device gives that device. */
  function FirstPreferred(devices: seq<AudioDevice>, patterns: seq<string>): (r: Option<AudioDevice>)
    ensures r.Some? ==> r.value in devices && r.value.isInput
    ensures r.None? ==> forall k :: 0 <= k < |patterns| ==> !InputMatch(devices, patterns[k])
  {
    if patterns == [] then None
    else
      var m := FirstMatching(devices, patterns[0]);
      if m.Some? && m.value.isInput then m
      else
        var r := FirstPreferred(devices, patterns[1..]);
        assert forall k :: 1 <= k < |patterns| ==> patterns[k] == patterns[1..][k - 1];
        r
  }

  /** The device chosen is the match of the first pattern that matches an input device. */
  lemma {:induction false} FirstPreferredIsFirstMatch(devices: seq<AudioDevice>, patterns: seq<string>)
    requires FirstPreferred(devices, patterns).Some?
    ensures exists k :: PreferredAt(devices, patterns, k)
  {
    if InputMatch(devices, patterns[0]) {
      assert PreferredAt(devices, patterns, 0);
    } else {
      var rest := patterns[1..];
      assert FirstPreferred(devices, patterns) == FirstPreferred(devices, rest);
      FirstPreferredIsFirstMatch(devices, rest);
      var k :| PreferredAt(devices, rest, k);
      assert patterns[k + 1] == rest[k];
      forall j | 0 <= j < k + 1
        ensures !InputMatch(devices, patterns[j])
      {
        if j > 0 {
          assert patterns[j] == rest[j - 1];
        }
      }
      assert PreferredAt(devices, patterns, k + 1);
    }
  }

  /** Pattern `k` is the first one matching an input device, and its match is the preferred device. */
  ghost predicate PreferredAt(devices: seq<AudioDevice>, patterns: seq<string>, k: int)
  {
    0 <= k < |patterns| && FirstMatching(devices, patterns[k]) == FirstPreferred(devices, patterns)
    && forall j :: 0 <= j < k ==> !InputMatch(devices, patterns[j])
  }

  /** The device the system reports as default when it is listed as an input, else the first input device. */
  function DefaultInput(devices: seq<AudioDevice>, defaultName: Option<string>): (r: Option<AudioDevice>)
    ensures r.Some? ==> r.value in devices && r.value.isInput
    ensures r.None? <==> InputDevices(devices) == []
    ensures defaultName.Some? && FirstNamedInput(devices, defaultName.value).Some? ==> r == FirstNamedInput(devices, defaultName.value)
    ensures (defaultName.None? || FirstNamedInput(devices, defaultName.value).None?) && InputDevices(devices) != [] ==>
      r == Some(InputDevices(devices)[0])
      && exists i :: 0 <= i < |devices| && devices[i] == r.value && forall j :: 0 <= j < i ==> !devices[j].isInput
  {
    var named := if defaultName.Some? then FirstNamedInput(devices, defaultName.value) else None;
    if named.Some? then named
    else
      var inputs := InputDevices(devices);
      if inputs != [] then
        assert inputs[0] in inputs;
        Some(inputs[0])
      else None
  }

  /** An input device whose name is exactly `name`. */
  predicate NamedInput(d: AudioDevice, name: string)
  {
    d.name == name && d.isInput
  }

  /** The first device whose name is exactly `name` and that is an input. */
  function FirstNamedInput(devices: seq<AudioDevice>, name: string): (r: Option<AudioDevice>)
    ensures r.Some? ==> r.value in devices && r.value.isInput && r.value.name == name
    ensures r.Some? ==> r.value in InputDevices(devices)
    ensures r.Some? ==>
      exists i :: 0 <= i < |devices| && devices[i] == r.value && forall j :: 0 <= j < i ==> !NamedInput(devices[j], name)
    ensures r.None? <==> forall i :: 0 <= i < |devices| ==> !NamedInput(devices[i], name)
  {
    if devices == [] then None
    else if NamedInput(devices[0], name) then
      assert devices[0] == devices[0];
      Some(devices[0])
    else
      var r := FirstNamedInput(devices[1..], name);
      NamedInputTail(devices, name, r);
      r
  }

  /** What holds of the first named input of the tail holds of the whole list when its head is not one. */
  lemma NamedInputTail(devices: seq<AudioDevice>, name: string, r: Option<AudioDevice>)
    requires devices != [] && !NamedInput(devices[0], name)
    requires r.Some? ==>
      exists i :: 0 <= i < |devices[1..]| && devices[1..][i] == r.value && forall j :: 0 <= j < i ==> !NamedInput(devices[1..][j], name)
    requires r.None? <==> forall i :: 0 <= i < |devices[1..]| ==> !NamedInput(devices[1..][i], name)
    ensures r.Some? ==>
      exists i :: 0 <= i < |devices| && devices[i] == r.value && forall j :: 0 <= j < i ==> !NamedInput(devices[j], name)
    ensures r.None? <==> forall i :: 0 <= i < |devices| ==> !NamedInput(devices[i], name)
  {
    var rest := devices[1..];
    forall i | 1 <= i < |devices|
      ensures devices[i] == rest[i - 1]
    {
    }
    if r.Some? {
      var i :| 0 <= i < |rest| && rest[i] == r.value && forall j :: 0 <= j < i ==> !NamedInput(rest[j], name);
      assert devices[i + 1] == r.value;
    }
  }

  /** `get_best_capture_device`: always an input device, and absent only when there is no input device at all. */
  function BestCaptureDevice(devices: seq<AudioDevice>, defaultName: Option<string>): (r: Option<AudioDevice>)
    ensures r.Some? ==> r.value in devices && r.value.isInput
    ensures r.None? <==> forall d :: d in devices ==> !d.isInput
    ensures FirstPreferred(devices, PreferredPatterns).Some? ==> r == FirstPreferred(devices, PreferredPatterns)
    ensures FirstPreferred(devices, PreferredPatterns).None? ==> r == DefaultInput(devices, defaultName)
  {
    var preferred := FirstPreferred(devices, PreferredPatterns);
    if preferred.Some? then preferred
    else
      var r := DefaultInput(devices, defaultName);
      assert r.None? ==> forall d :: d in devices ==> !(d in InputDevices(devices));
      r
  }

  class AudioDeviceManager {
    var devices: seq<AudioDevice>

    constructor (devices: seq<AudioDevice>)
      ensures this.devices == devices
    {
      this.devices := devices;
    }

    /** `find_device`: scans the devices in order for the first whose lowercased name contains the lowercased pattern. */
    method FindDevice(namePattern: string) returns (r: Option<AudioDevice>)
      ensures r == FirstMatching(devices, namePattern)
    {
      var nameLower := Text.Lower(namePattern);
      var i := 0;
      while i < |devices|
        invariant 0 <= i <= |devices|
        invariant FirstMatching(devices[i..], namePattern) == FirstMatching(devices, namePattern)
      {
        if Text.Contains(Text.Lower(devices[i].name), nameLower) {
          return Some(devices[i]);
        }
        assert devices[i..][1..] == devices[i + 1..];
        i := i + 1;
      }
      return None;
    }

    /** `get_best_capture_device`: the preferred patterns in order, then the default input device. */
    method GetBestCaptureDevice(defaultName: Option<string>) returns (r: Option<AudioDevice>)
      ensures r == BestCaptureDevice(devices, defaultName)
    {
      r := FindPreferred(PreferredPatterns);
      if r.None? {
        r := GetDefaultInputDevice(defaultName);
      }
    }

    /** The loop over the preferred patterns: the first pattern whose first match is an input device. */
    method FindPreferred(patterns: seq<string>) returns (r: Option<AudioDevice>)
      ensures r == FirstPreferred(devices, patterns)
    {
      var k := 0;
      while k < |patterns|
        invariant 0 <= k <= |patterns|
        invariant FirstPreferred(devices, patterns[k..]) == FirstPreferred(devices, patterns)
      {
        var device := FindDevice(patterns[k]);
        if device.Some? && device.value.isInput {
          return device;
        }
        assert patterns[k..][1..] == patterns[k + 1..];
        k := k + 1;
      }
      return None;
    }

    /** `get_default_input_device`; `defaultName` is None when the system query raises. */
    method GetDefaultInputDevice(defaultName: Option<string>) returns (r: Option<AudioDevice>)
      ensures r == DefaultInput(devices, defaultName)
    {
      if defaultName.Some? {
        var i := 0;
        while i < |devices|
          invariant 0 <= i <= |devices|
          invariant FirstNamedInput(devices[i..], defaultName.value) == FirstNamedInput(devices, defaultName.value)
        {
          if devices[i].name == defaultName.value && devices[i].isInput {
            return Some(devices[i]);
          }
          assert devices[i..][1..] == devices[i + 1..];
          i := i + 1;
        }
      }
      var inputs := InputDevices(devices);
      r := if inputs != [] then Some(inputs[0]) else None;
    }
  }

  /** A bounded FIFO of audio chunks; a maximum size of zero or less means unbounded, as for Python's `queue.Queue`. */
  class AudioBuffer {
    const maxSize: int
    var items: seq<seq<real>>
    var droppedChunks: nat

    ghost predicate Valid()
      reads this
    {
      maxSize > 0 ==> |items| <= maxSize
    }

    predicate Full()
      reads this
    {
      maxSize > 0 && |items| >= maxSize
    }

    constructor (maxSize: int)
      ensures Valid() && this.maxSize == maxSize && items == [] && droppedChunks == 0
    {
      this.maxSize := maxSize;
      items := [];
      droppedChunks := 0;
    }

    /** `put`: enqueues unless full; a full buffer keeps its contents and counts one more dropped chunk. */
    method Put(chunk: seq<real>) returns (ok: bool)
      requires Valid()
      modifies this
      ensures Valid()
      ensures ok == !old(Full())
      ensures ok ==> items == old(items) + [chunk] && droppedChunks == old(droppedChunks)
      ensures !ok ==> items == old(items) && droppedChunks == old(droppedChunks) + 1
    {
      if Full() {
        droppedChunks := droppedChunks + 1;
        ok := false;
      } else {
        items := items + [chunk];
        ok := true;
      }
    }

    /** `get`: the oldest chunk, or None when the buffer is empty. */
    method Get() returns (r: Option<seq<real>>)
      requires Valid()
      modifies this
      ensures Valid()
      ensures old(items) == [] ==> r.None? && items == []
      ensures old(items) != [] ==> r == Some(old(items)[0]) && items == old(items)[1..]
      ensures droppedChunks == old(droppedChunks)
    {
      if items == [] {
        r := None;
      } else {
        r := Some(items[0]);
        items := items[1..];
      }
    }

    function Size(): (n: nat)
      requires Valid()
      reads this
      ensures maxSize > 0 ==> n <= maxSize
      ensures n == 0 <==> items == []
    {
      |items|
    }

    /** `clear`: removes every chunk one at a time; the drop counter is kept. */
    method Clear()
      requires Valid()
      modifies this
      ensures Valid()
      ensures items == [] && droppedChunks == old(droppedChunks)
    {
      while items != []
        invariant Valid() && droppedChunks == old(droppedChunks)
        decreases |items|
      {
        items := items[1..];
      }
    }
  }

  class AudioCaptureSystem {
    const sampleRate: int
    const inputDevice: Option<string>
    const deviceManager: AudioDeviceManager
    const audioBuffer: AudioBuffer
    var isCapturing: bool
    var currentDevice: Option<AudioDevice>
    var streamOpen: bool
    var chunksProcessed: nat
    var totalDuration: real
    var lastChunkTime: real

    ghost predicate Valid()
      reads this, audioBuffer
    {
      audioBuffer.Valid() && sampleRate > 0 && (isCapturing ==> currentDevice.Some? && streamOpen)
    }

    constructor (sampleRate: int, inputDevice: Option<string>, maxBufferSize: int, devices: seq<AudioDevice>)
      requires sampleRate > 0
      ensures Valid() && fresh(audioBuffer) && fresh(deviceManager)
      ensures this.sampleRate == sampleRate && this.inputDevice == inputDevice
      ensures deviceManager.devices == devices && audioBuffer.maxSize == maxBufferSize && audioBuffer.items == []
      ensures !isCapturing && currentDevice.None? && !streamOpen
      ensures chunksProcessed == 0 && totalDuration == 0.0 && lastChunkTime == 0.0
    {
      this.sampleRate := sampleRate;
      this.inputDevice := inputDevice;
      deviceManager := new AudioDeviceManager(devices);
      audioBuffer := new AudioBuffer(maxBufferSize);
      isCapturing := false;
      currentDevice := None;
      streamOpen := false;
      chunksProcessed := 0;
      totalDuration := 0.0;
      lastChunkTime := 0.0;
    }

    /** `_select_capture_device`: the configured device when it matches an input, else the best capture device. */
    method SelectCaptureDevice(defaultName: Option<string>) returns (r: Option<AudioDevice>)
      ensures inputDevice.Some? && inputDevice.value != "" && FirstMatching(deviceManager.devices, inputDevice.value).Some?
        && FirstMatching(deviceManager.devices, inputDevice.value).value.isInput
        ==> r == FirstMatching(deviceManager.devices, inputDevice.value)
      ensures !(inputDevice.Some? && inputDevice.value != "" && InputMatch(deviceManager.devices, inputDevice.value))
        ==> r == BestCaptureDevice(deviceManager.devices, defaultName)
      ensures r.Some? ==> r.value in deviceManager.devices && r.value.isInput
      ensures r.None? <==> forall d :: d in deviceManager.devices ==> !d.isInput
    {
      if inputDevice.Some? && inputDevice.value != "" {
        var device := deviceManager.FindDevice(inputDevice.value);
        if device.Some? && device.value.isInput {
          return device;
        }
      }
      r := deviceManager.GetBestCaptureDevice(defaultName);
    }

    /** The stream callback: offers the chunk to the buffer and counts it whether or not it was dropped. */
    method StreamCallback(chunk: seq<real>, now: real)
      requires Valid()
      modifies this, audioBuffer
      ensures Valid()
      ensures chunksProcessed == old(chunksProcessed) + 1 && lastChunkTime == now
      ensures audioBuffer.items == (if old(audioBuffer.Full()) then old(audioBuffer.items) else old(audioBuffer.items) + [chunk])
      ensures audioBuffer.droppedChunks == old(audioBuffer.droppedChunks) + (if old(audioBuffer.Full()) then 1 else 0)
      ensures isCapturing == old(isCapturing) && currentDevice == old(currentDevice) && streamOpen == old(streamOpen)
      ensures totalDuration == old(totalDuration)
    {
      var _ := audioBuffer.Put(chunk);
      chunksProcessed := chunksProcessed + 1;
      lastChunkTime := now;
    }

    /** One pass of the processing loop: takes the oldest chunk, if any, adds its duration and hands it on. */
    method ProcessStep() returns (delivered: Option<seq<real>>)
      requires Valid()
      modifies this, audioBuffer
      ensures Valid()
      ensures old(audioBuffer.items) == [] ==> delivered.None? && totalDuration == old(totalDuration)
      ensures old(audioBuffer.items) != [] ==>
        && delivered == Some(old(audioBuffer.items)[0])
        && audioBuffer.items == old(audioBuffer.items)[1..]
        && totalDuration == old(totalDuration) + |delivered.value| as real / sampleRate as real
      ensures chunksProcessed == old(chunksProcessed) && isCapturing == old(isCapturing)
      ensures currentDevice == old(currentDevice) && streamOpen == old(streamOpen)
    {
      delivered := audioBuffer.Get();
      if delivered.Some? {
        totalDuration := totalDuration + |delivered.value| as real / sampleRate as real;
      }
    }

    /**
     * `start_capture`. `streamStarts` says whether opening and starting the
     * stream succeeds; when it fails the cleanup call finds capture not yet
     * running and does nothing, so the selected device stays recorded.
     */
    method StartCapture(defaultName: Option<string>, streamStarts: bool) returns (ok: bool)
      requires Valid()
      modifies this, audioBuffer
      ensures Valid()
      ensures old(isCapturing) ==> ok && isCapturing && currentDevice == old(currentDevice) && streamOpen == old(streamOpen)
      ensures !old(isCapturing) ==> (ok <==> currentDevice.Some? && streamStarts) && isCapturing == ok
      ensures !old(isCapturing) && currentDevice.None? ==> forall d :: d in deviceManager.devices ==> !d.isInput
      ensures !old(isCapturing) && currentDevice.Some? ==> currentDevice.value in deviceManager.devices && currentDevice.value.isInput
      ensures !old(isCapturing) && inputDevice.Some? && inputDevice.value != "" && InputMatch(deviceManager.devices, inputDevice.value)
        ==> currentDevice == FirstMatching(deviceManager.devices, inputDevice.value)
      ensures !old(isCapturing) && !(inputDevice.Some? && inputDevice.value != "" && InputMatch(deviceManager.devices, inputDevice.value))
        ==> currentDevice == BestCaptureDevice(deviceManager.devices, defaultName)
      ensures !old(isCapturing) ==> streamOpen == (if ok then true else old(streamOpen))
      ensures audioBuffer.items == old(audioBuffer.items) && audioBuffer.droppedChunks == old(audioBuffer.droppedChunks)
      ensures chunksProcessed == old(chunksProcessed) && totalDuration == old(totalDuration) && lastChunkTime == old(lastChunkTime)
    {
      if isCapturing {
        return true;
      }
      currentDevice := SelectCaptureDevice(defaultName);
      if currentDevice.None? {
        return false;
      }
      if streamStarts {
        streamOpen := true;
        isCapturing := true;
        ok := true;
      } else {
        StopCapture();
        ok := false;
      }
    }

    /** `stop_capture`: nothing when not capturing; otherwise closes the stream, empties the buffer and forgets the device. */
    method StopCapture()
      requires Valid()
      modifies this, audioBuffer
      ensures Valid()
      ensures !old(isCapturing) ==>
        isCapturing == old(isCapturing) && currentDevice == old(currentDevice) && streamOpen == old(streamOpen) && audioBuffer.items == old(audioBuffer.items)
      ensures old(isCapturing) ==> !isCapturing && currentDevice.None? && !streamOpen && audioBuffer.items == []
      ensures audioBuffer.droppedChunks == old(audioBuffer.droppedChunks)
      ensures chunksProcessed == old(chunksProcessed) && totalDuration == old(totalDuration) && lastChunkTime == old(lastChunkTime)
    {
      if !isCapturing {
        return;
      }
      streamOpen := false;
      audioBuffer.Clear();
      isCapturing := false;
      currentDevice := None;
    }
  }
}
