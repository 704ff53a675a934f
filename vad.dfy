/**
 * Voice activity detection: the per-chunk voice decision (noise gate, model
 * probability or energy fallback), the SILENCE/SPEAKING segmenter that turns
 * decisions into voice segments, the segment history with its time-window
 * queries, and the adaptive wrapper that collects noise energies and raises
 * the threshold above the noise floor.
 *
 * The RMS energy of a chunk is an input value; the voice model's call is an
 * outcome parameter; the clock is a `now` parameter.
 */
module Vad {
  import opened Common

  /** A chunk of audio samples together with its RMS energy. */
  datatype Chunk = Chunk(samples: seq<real>, rms: real)

  datatype VoiceSegment = VoiceSegment(startTime: real, endTime: real, confidence: real, audio: Option<seq<real>>)
  {
    function Duration(): real
    {
      endTime - startTime
    }
  }

  /** Chunks quieter than this are silence whatever the detector would say. */
  const NoiseGate: real := 0.0005
  /** The energy fallback never uses a threshold below this. */
  const EnergyFloor: real := 0.05
  /** Segments must be strictly longer than this (seconds) to be kept. */
  const MinSegmentDuration: real := 0.5
  /** At most this many noise energies are kept by the adaptive detector. */
  const AdaptationWindow: nat := 1000
  /** The adaptive threshold is recomputed only with more samples than this. */
  const MinAdaptationSamples: nat := 100

  datatype Decision = Decision(hasVoice: bool, confidence: real)

  /** What the voice model's call produced: a speech probability, or an exception. */
  datatype ModelCall = Probability(p: real) | ModelRaised

  /** The energy fallback: voice iff the energy beats max(threshold, 0.05); confidence scales to 1 at twice that. */
  function EnergyBasedVad(rms: real, threshold: real): (d: Decision)
    ensures d.hasVoice <==> rms > Max(threshold, EnergyFloor)
    ensures 0.0 <= rms ==> 0.0 <= d.confidence <= 1.0
    ensures d.hasVoice ==> d.confidence > 0.5
    ensures !d.hasVoice && 0.0 <= rms ==> d.confidence <= 0.5
    ensures d.confidence == 1.0 <==> rms >= 2.0 * Max(threshold, EnergyFloor)
  {
    var energyThreshold := Max(threshold, EnergyFloor);
    Decision(rms > energyThreshold, Min(1.0, rms / (energyThreshold * 2.0)))
  }

  /** The detector: the noise gate first, then the model when loaded, else (or when the model raises) the energy fallback. */
  function DetectVoiceActivity(rms: real, threshold: real, isLoaded: bool, model: ModelCall): (d: Decision)
    ensures rms < NoiseGate ==> d == Decision(false, 0.0)
    ensures rms >= NoiseGate && (!isLoaded || model.ModelRaised?) ==> d == EnergyBasedVad(rms, threshold)
    ensures rms >= NoiseGate && isLoaded && model.Probability? ==> d == Decision(model.p > threshold, model.p)
  {
    if rms < NoiseGate then Decision(false, 0.0)
    else if !isLoaded then EnergyBasedVad(rms, threshold)
    else match model
      case Probability(p) => Decision(p > threshold, p)
      case ModelRaised => EnergyBasedVad(rms, threshold)
  }

  /** Without the model, the gate adds nothing: voice is exactly energy above max(threshold, 0.05). */
  lemma FallbackVoicedIff(rms: real, threshold: real, model: ModelCall)
    ensures DetectVoiceActivity(rms, threshold, false, model).hasVoice <==> rms > Max(threshold, EnergyFloor)
    ensures 0.0 <= rms ==> UnitInterval(DetectVoiceActivity(rms, threshold, false, model).confidence)
  {
  }

  /** The concatenation of the buffered chunks, in order. */
  function Concat(chunks: seq<seq<real>>): (r: seq<real>)
  {
    if chunks == [] then [] else Concat(chunks[..|chunks| - 1]) + chunks[|chunks| - 1]
  }

  lemma {:induction false} ConcatLength(chunks: seq<seq<real>>)
    ensures |Concat(chunks)| == SumLengths(chunks)
  {
    if chunks != [] {
      ConcatLength(chunks[..|chunks| - 1]);
    }
  }

  function SumLengths(chunks: seq<seq<real>>): nat
  {
    if chunks == [] then 0 else SumLengths(chunks[..|chunks| - 1]) + |chunks[|chunks| - 1]|
  }

  /** The segmenter's state: when the current speech started (None while silent) and its buffered chunks. */
  datatype Segmenter = Segmenter(speechStart: Option<real>, buffer: seq<seq<real>>)

  /** Silent with an empty buffer, or speaking with at least one buffered chunk. */
  predicate WellFormed(s: Segmenter)
  {
    s.speechStart.None? <==> s.buffer == []
  }

  datatype StepResult = StepResult(next: Segmenter, emitted: seq<VoiceSegment>)

  /** One chunk through the segmenter, given the detector's decision for it. */
  function Step(st: Segmenter, d: Decision, samples: seq<real>, timestamp: real): (r: StepResult)
    ensures |r.emitted| <= 1
    ensures forall k :: 0 <= k < |r.emitted| ==> r.emitted[k].Duration() > MinSegmentDuration
    ensures d.hasVoice && st.speechStart.None? ==> r.next == Segmenter(Some(timestamp), [samples]) && r.emitted == []
    ensures d.hasVoice && st.speechStart.Some? ==> r.next == Segmenter(st.speechStart, st.buffer + [samples]) && r.emitted == []
    ensures !d.hasVoice && st.speechStart.None? ==> r == StepResult(st, [])
    ensures !d.hasVoice && st.speechStart.Some? ==> r.next == Segmenter(None, [])
    ensures r.emitted != [] ==>
      && st.speechStart.Some?
      && r.emitted[0].startTime == st.speechStart.value
      && r.emitted[0].endTime == timestamp
      && r.emitted[0].confidence == d.confidence
      && (WellFormed(st) ==> r.emitted[0].audio == Some(Concat(st.buffer)))
    ensures !d.hasVoice && st.speechStart.Some? && timestamp - st.speechStart.value > MinSegmentDuration ==> |r.emitted| == 1
    ensures WellFormed(st) ==> WellFormed(r.next)
  {
    if d.hasVoice then
      if st.speechStart.None? then StepResult(Segmenter(Some(timestamp), [samples]), [])
      else StepResult(Segmenter(st.speechStart, st.buffer + [samples]), [])
    else if st.speechStart.Some? then
      var segment := VoiceSegment(st.speechStart.value, timestamp, d.confidence,
        if st.buffer != [] then Some(Concat(st.buffer)) else None);
      StepResult(Segmenter(None, []), if segment.Duration() > MinSegmentDuration then [segment] else [])
    else
      StepResult(st, [])
  }

  /** One chunk of a stream: its decision, samples and timestamp. */
  datatype Event = Event(decision: Decision, samples: seq<real>, timestamp: real)

  /** The segments a stream of chunks produces, in order, and the final state. */
  function Run(st: Segmenter, events: seq<Event>): StepResult
    decreases |events|
  {
    if events == [] then StepResult(st, [])
    else
      var first := Step(st, events[0].decision, events[0].samples, events[0].timestamp);
      var rest := Run(first.next, events[1..]);
      StepResult(rest.next, first.emitted + rest.emitted)
  }

  predicate Increasing(events: seq<Event>)
  {
    forall i, j :: 0 <= i < j < |events| ==> events[i].timestamp < events[j].timestamp
  }

  /** Segments that start no earlier than `lo`, each ending before the next begins. */
  predicate Chronological(segments: seq<VoiceSegment>, lo: real)
  {
    && (forall i :: 0 <= i < |segments| ==> lo <= segments[i].startTime < segments[i].endTime)
    && (forall i :: 0 <= i < |segments| - 1 ==> segments[i].endTime <= segments[i + 1].startTime)
  }

  /** With strictly increasing timestamps the emitted segments are chronological and never overlap. */
  lemma {:induction false} RunChronological(st: Segmenter, events: seq<Event>, lo: real)
    requires Increasing(events)
    requires forall i :: 0 <= i < |events| ==> lo <= events[i].timestamp
    requires st.speechStart.Some? ==> lo <= st.speechStart.value
    ensures Chronological(Run(st, events).emitted, lo)
    decreases |events|
  {
    if events != [] {
      var e := events[0];
      var first := Step(st, e.decision, e.samples, e.timestamp);
      var rest := events[1..];
      if first.emitted != [] {
        RunChronological(first.next, rest, e.timestamp);
      } else {
        RunChronological(first.next, rest, lo);
      }
    }
  }

  /** Every emitted segment is longer than half a second, and each chunk yields at most one. */
  lemma {:induction false} RunSegmentsLongEnough(st: Segmenter, events: seq<Event>)
    ensures |Run(st, events).emitted| <= |events|
    ensures forall k :: 0 <= k < |Run(st, events).emitted| ==> Run(st, events).emitted[k].Duration() > MinSegmentDuration
    decreases |events|
  {
    if events != [] {
      var first := Step(st, events[0].decision, events[0].samples, events[0].timestamp);
      RunSegmentsLongEnough(first.next, events[1..]);
    }
  }

  /** The segments whose end is at or after `cutoff`, in their original order. */
  function EndingSince(segments: seq<VoiceSegment>, cutoff: real): (r: seq<VoiceSegment>)
    ensures |r| <= |segments|
    ensures forall s :: s in r <==> s in segments && s.endTime >= cutoff
  {
    if segments == [] then []
    else
      var init := EndingSince(segments[..|segments| - 1], cutoff);
      var last := segments[|segments| - 1];
      assert segments == segments[..|segments| - 1] + [last];
      if last.endTime >= cutoff then init + [last] else init
  }

  /** The filter keeps list order: filtering a concatenation concatenates the filtered parts. */
  lemma {:induction false} EndingSinceConcat(a: seq<VoiceSegment>, b: seq<VoiceSegment>, cutoff: real)
    ensures EndingSince(a + b, cutoff) == EndingSince(a, cutoff) + EndingSince(b, cutoff)
    decreases |b|
  {
    if b == [] {
      assert a + b == a;
    } else {
      var init := b[..|b| - 1];
      var last := b[|b| - 1];
      assert (a + b)[..|a + b| - 1] == a + init;
      EndingSinceConcat(a, init, cutoff);
    }
  }

  /** A single segment is kept exactly when it ends at or after the cutoff. */
  lemma EndingSinceSingle(s: VoiceSegment, cutoff: real)
    ensures EndingSince([s], cutoff) == if s.endTime >= cutoff then [s] else []
  {
    assert [s][..0] == [];
  }

  /** Pruning with an older cutoff and then querying with a newer one is the same as querying directly. */
  lemma {:induction false} EndingSinceCompose(segments: seq<VoiceSegment>, older: real, newer: real)
    requires older <= newer
    ensures EndingSince(EndingSince(segments, older), newer) == EndingSince(segments, newer)
  {
    if segments != [] {
      var init := segments[..|segments| - 1];
      var last := segments[|segments| - 1];
      EndingSinceCompose(init, older, newer);
      if last.endTime >= older {
        var pruned := EndingSince(init, older) + [last];
        assert pruned[..|pruned| - 1] == EndingSince(init, older);
      }
    }
  }

  /** The total speech time of a list of segments. */
  function TotalDuration(segments: seq<VoiceSegment>): real
  {
    if segments == [] then 0.0 else TotalDuration(segments[..|segments| - 1]) + segments[|segments| - 1].Duration()
  }

  lemma {:induction false} TotalDurationLowerBound(segments: seq<VoiceSegment>)
    requires forall k :: 0 <= k < |segments| ==> segments[k].Duration() > MinSegmentDuration
    ensures TotalDuration(segments) >= MinSegmentDuration * |segments| as real
    ensures segments != [] ==> TotalDuration(segments) > MinSegmentDuration * |segments| as real
  {
    if segments != [] {
      TotalDurationLowerBound(segments[..|segments| - 1]);
    }
  }

  datatype VadStats = VadStats(
    totalSegments: nat,
    totalSpeechDuration: real,
    averageSegmentDuration: real,
    speechRatio: real,
    recentSegments: Option<nat>)

  /** The window, in seconds, over which `speech_ratio` is measured. */
  const StatsWindow: real := 300.0

  class SileroVad {
    const sampleRate: int
    var threshold: real
    var isLoaded: bool
    var currentSpeechStart: Option<real>
    var audioBuffer: seq<seq<real>>
    var voiceSegments: seq<VoiceSegment>

    /** The segmenter is well formed and every recorded segment is longer than half a second. */
    ghost predicate Valid()
      reads this
    {
      WellFormed(Segmenter(currentSpeechStart, audioBuffer))
      && forall k :: 0 <= k < |voiceSegments| ==> voiceSegments[k].Duration() > MinSegmentDuration
    }

    constructor (sampleRate: int, threshold: real)
      ensures Valid()
      ensures this.sampleRate == sampleRate && this.threshold == threshold && !isLoaded
      ensures currentSpeechStart == None && audioBuffer == [] && voiceSegments == []
    {
      this.sampleRate := sampleRate;
      this.threshold := threshold;
      isLoaded := false;
      currentSpeechStart := None;
      audioBuffer := [];
      voiceSegments := [];
    }

    /** This detector's decision for a chunk. */
    function Detect(chunk: Chunk, model: ModelCall): Decision
      reads this
    {
      DetectVoiceActivity(chunk.rms, threshold, isLoaded, model)
    }

    /** Feeds one chunk through the segmenter; returns the segment it completes, if any. */
    method ProcessAudioStream(chunk: Chunk, timestamp: real, model: ModelCall) returns (completed: seq<VoiceSegment>)
      requires Valid()
      modifies this`currentSpeechStart, this`audioBuffer, this`voiceSegments
      ensures Valid()
      ensures var r := Step(Segmenter(old(currentSpeechStart), old(audioBuffer)), Detect(chunk, model), chunk.samples, timestamp);
        Segmenter(currentSpeechStart, audioBuffer) == r.next && completed == r.emitted
      ensures voiceSegments == old(voiceSegments) + completed
    {
      var d := Detect(chunk, model);
      completed := [];
      if d.hasVoice {
        if currentSpeechStart.None? {
          currentSpeechStart := Some(timestamp);
          audioBuffer := [chunk.samples];
        } else {
          audioBuffer := audioBuffer + [chunk.samples];
        }
      } else if currentSpeechStart.Some? {
        var segment := VoiceSegment(currentSpeechStart.value, timestamp, d.confidence,
          if audioBuffer != [] then Some(Concat(audioBuffer)) else None);
        if segment.Duration() > MinSegmentDuration {
          completed := [segment];
          voiceSegments := voiceSegments + [segment];
        }
        currentSpeechStart := None;
        audioBuffer := [];
      }
    }

    /** `get_recent_segments`: the recorded segments ending within `duration` seconds of `now`. */
    function RecentSegments(now: real, duration: real): (r: seq<VoiceSegment>)
      reads this
      ensures forall s :: s in r <==> s in voiceSegments && s.endTime >= now - duration
      ensures r == EndingSince(voiceSegments, now - duration)
    {
      if voiceSegments == [] then [] else EndingSince(voiceSegments, now - duration)
    }

    /** `cleanup_old_segments`: forgets every segment that ended before `now - keepDuration`. */
    method CleanupOldSegments(now: real, keepDuration: real)
      requires Valid()
      modifies this`voiceSegments
      ensures Valid()
      ensures voiceSegments == EndingSince(old(voiceSegments), now - keepDuration)
    {
      if voiceSegments != [] {
        voiceSegments := EndingSince(voiceSegments, now - keepDuration);
      }
    }

    /** `get_stats`, with the clock as a parameter. */
    function Stats(now: real): (r: VadStats)
      requires Valid()
      reads this
      ensures r.totalSegments == |voiceSegments|
      ensures voiceSegments == [] <==> r.recentSegments.None?
      ensures voiceSegments != [] ==> r.averageSegmentDuration > MinSegmentDuration
      ensures 0.0 <= r.speechRatio <= 1.0
      ensures r.recentSegments.Some? ==> r.recentSegments.value == |RecentSegments(now, StatsWindow)|
    {
      if voiceSegments == [] then VadStats(0, 0.0, 0.0, 0.0, None)
      else
        var total := TotalDuration(voiceSegments);
        var recent := RecentSegments(now, StatsWindow);
        StatsFacts(voiceSegments, now - StatsWindow);
        var ratio := if recent != [] then TotalDuration(recent) / StatsWindow else 0.0;
        VadStats(|voiceSegments|, total, total / |voiceSegments| as real, Min(1.0, ratio), Some(|recent|))
    }
  }

  /** The facts `get_stats` relies on: the average of long segments is long, and recent speech is never negative. */
  lemma StatsFacts(segments: seq<VoiceSegment>, cutoff: real)
    requires segments != []
    requires forall k :: 0 <= k < |segments| ==> segments[k].Duration() > MinSegmentDuration
    ensures TotalDuration(segments) / |segments| as real > MinSegmentDuration
    ensures TotalDuration(EndingSince(segments, cutoff)) >= 0.0
  {
    TotalDurationLowerBound(segments);
    AverageAbove(TotalDuration(segments), |segments|, MinSegmentDuration);
    RecentAreLong(segments, cutoff);
    TotalDurationLowerBound(EndingSince(segments, cutoff));
  }

  lemma AverageAbove(total: real, n: nat, bound: real)
    requires n > 0 && total > bound * n as real
    ensures (total / n as real) * n as real == total
    ensures total / n as real > bound
  {
    var avg := total / n as real;
    assert (avg - bound) * n as real == total - bound * n as real;
  }

  lemma RecentAreLong(segments: seq<VoiceSegment>, cutoff: real)
    requires forall k :: 0 <= k < |segments| ==> segments[k].Duration() > MinSegmentDuration
    ensures forall k :: 0 <= k < |EndingSince(segments, cutoff)| ==> EndingSince(segments, cutoff)[k].Duration() > MinSegmentDuration
  {
    var r := EndingSince(segments, cutoff);
    forall k | 0 <= k < |r| ensures r[k].Duration() > MinSegmentDuration {
      assert r[k] in segments;
    }
  }

  /** Wraps a detector, collects the energies of non-voice chunks and adapts the threshold to the noise floor. */
  class AdaptiveVad {
    const base: SileroVad
    /** The threshold the configuration asked for; adaptation never goes below it. */
    const configThreshold: real
    var noiseFloor: real
    var noiseSamples: seq<real>
    var isAdapting: bool

    ghost predicate Valid()
      reads this, base
    {
      base.Valid() && |noiseSamples| <= AdaptationWindow && base.threshold >= configThreshold
    }

    constructor (sampleRate: int, configThreshold: real)
      ensures Valid() && fresh(base)
      ensures this.configThreshold == configThreshold && base.threshold == configThreshold && base.sampleRate == sampleRate
      ensures base.voiceSegments == [] && base.currentSpeechStart == None && !base.isLoaded
      ensures noiseFloor == 0.001 && noiseSamples == [] && !isAdapting
    {
      base := new SileroVad(sampleRate, configThreshold);
      this.configThreshold := configThreshold;
      noiseFloor := 0.001;
      noiseSamples := [];
      isAdapting := false;
    }

    /** The base detector's decision; a non-voice chunk's energy joins the last thousand noise samples. */
    method DetectVoiceActivity(chunk: Chunk, model: ModelCall) returns (d: Decision)
      requires Valid()
      modifies this`noiseSamples
      ensures Valid()
      ensures d == base.Detect(chunk, model)
      ensures noiseSamples == if d.hasVoice then old(noiseSamples) else LastN(old(noiseSamples) + [chunk.rms], AdaptationWindow)
    {
      d := base.Detect(chunk, model);
      if !d.hasVoice {
        noiseSamples := noiseSamples + [chunk.rms];
        if |noiseSamples| > AdaptationWindow {
          noiseSamples := noiseSamples[|noiseSamples| - AdaptationWindow..];
        }
      }
    }

    /** One pass of the adaptation loop; `percentile20` stands for the 20th percentile of a sample list. */
    method AdaptationStep(percentile20: seq<real> -> real)
      requires Valid()
      modifies this`noiseFloor, base`threshold
      ensures Valid()
      ensures |noiseSamples| <= MinAdaptationSamples ==> noiseFloor == old(noiseFloor) && base.threshold == old(base.threshold)
      ensures |noiseSamples| > MinAdaptationSamples ==>
        && noiseFloor == percentile20(noiseSamples[|noiseSamples| - MinAdaptationSamples..])
        && base.threshold == Max(configThreshold, noiseFloor * 3.0)
    {
      if |noiseSamples| > MinAdaptationSamples {
        noiseFloor := percentile20(noiseSamples[|noiseSamples| - MinAdaptationSamples..]);
        base.threshold := Max(configThreshold, noiseFloor * 3.0);
      }
    }

    /** Delegates to the base detector's segmenter, so the noise samples are left untouched. */
    method ProcessAudioStream(chunk: Chunk, timestamp: real, model: ModelCall) returns (completed: seq<VoiceSegment>)
      requires Valid()
      modifies base`currentSpeechStart, base`audioBuffer, base`voiceSegments
      ensures Valid()
      ensures noiseSamples == old(noiseSamples) && noiseFloor == old(noiseFloor)
      ensures var r := Step(Segmenter(old(base.currentSpeechStart), old(base.audioBuffer)), base.Detect(chunk, model), chunk.samples, timestamp);
        Segmenter(base.currentSpeechStart, base.audioBuffer) == r.next && completed == r.emitted
      ensures base.voiceSegments == old(base.voiceSegments) + completed
    {
      completed := base.ProcessAudioStream(chunk, timestamp, model);
    }
  }
}
