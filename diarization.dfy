/**
 * Speaker diarization bookkeeping: the windowed energy fallback that labels audio
 * when the pyannote pipeline is unavailable, the ranking of speakers into sales rep
 * and customer by talk time, running-average speaker profiles, the real-time buffer
 * pruned to the last thirty seconds, and the maximum-overlap lookup used to attribute
 * a stretch of time to a speaker. The pipeline itself is an outcome parameter and the
 * RMS of a window an abstract function.
 */
module Diarization {
  import opened Common
  import opened Conversation
  import Vad

  /** A stretch of audio attributed to one diarizer label such as "SPEAKER_1". */
  datatype SpeakerSegment = SpeakerSegment(startTime: real, endTime: real, speakerId: string, confidence: real, audio: Option<seq<real>>)
  {
    function Duration(): real
    {
      endTime - startTime
    }
  }

  /** Window length of the fallback diarizer, in seconds. */
  const WindowSeconds: nat := 2
  /** RMS a fallback window must exceed to be attributed to anyone. */
  const SpeechRms: real := 0.02
  const FallbackConfidence: real := 0.5
  /** pyannote reports no score; its segments are given full confidence. */
  const PipelineConfidence: real := 1.0
  /** The rate `diarize_audio` assumes when its caller passes none. */
  const DefaultSampleRate: nat := 16000

  // ---------------------------------------------------------------------------
  // Fallback diarization
  // ---------------------------------------------------------------------------

  /** The label of fallback window `k`: the two labels alternate window by window. */
  function AlternatingLabel(k: nat): string
  {
    if k % 2 == 0 then "SPEAKER_1" else "SPEAKER_2"
  }

  /** End (exclusive) of the window starting at sample `i`. */
  function WindowEnd(len: nat, sampleRate: nat, i: nat): (e: nat)
    ensures e == if i + WindowSeconds * sampleRate <= len then i + WindowSeconds * sampleRate else len
  {
    if i + WindowSeconds * sampleRate <= len then i + WindowSeconds * sampleRate else len
  }

  /** The segment the fallback emits for the voiced window starting at sample `i`. */
  function FallbackSegment(len: nat, sampleRate: nat, i: nat): SpeakerSegment
    requires sampleRate > 0
  {
    var sr := sampleRate as real;
    SpeakerSegment(i as real / sr, Min((i + WindowSeconds * sampleRate) as real / sr, len as real / sr),
                   AlternatingLabel(i / (WindowSeconds * sampleRate)), FallbackConfidence, None)
  }

  /** The fallback's output for the windows from sample `i` on. */
  function FallbackFrom(audio: seq<real>, sampleRate: nat, rms: seq<real> -> real, i: nat): seq<SpeakerSegment>
    requires sampleRate > 0
    decreases |audio| - i
  {
    if i >= |audio| then []
    else
      var rest := FallbackFrom(audio, sampleRate, rms, i + WindowSeconds * sampleRate);
      if rms(audio[i..WindowEnd(|audio|, sampleRate, i)]) > SpeechRms then [FallbackSegment(|audio|, sampleRate, i)] + rest
      else rest
  }

  /** `_fallback_diarization`: walk the audio in two-second windows and label the loud ones. */
  method FallbackDiarization(audio: seq<real>, sampleRate: nat, rms: seq<real> -> real) returns (segments: seq<SpeakerSegment>)
    requires sampleRate > 0
    ensures segments == FallbackFrom(audio, sampleRate, rms, 0)
  {
    var size := WindowSeconds * sampleRate;
    segments := [];
    var i := 0;
    while i < |audio|
      invariant segments + FallbackFrom(audio, sampleRate, rms, i) == FallbackFrom(audio, sampleRate, rms, 0)
      decreases |audio| - i
    {
      var chunk := audio[i..WindowEnd(|audio|, sampleRate, i)];
      if rms(chunk) > SpeechRms {
        segments := segments + [FallbackSegment(|audio|, sampleRate, i)];
      }
      i := i + size;
    }
  }

  /** Segments that each last a positive time and follow one another without overlap. */
  predicate Ordered(segments: seq<SpeakerSegment>)
  {
    (forall k :: 0 <= k < |segments| ==> segments[k].startTime < segments[k].endTime)
    && (forall k :: 0 <= k < |segments| - 1 ==> segments[k].endTime <= segments[k + 1].startTime)
  }

  lemma DivLess(a: real, b: real, s: real)
    requires s > 0.0 && a < b
    ensures a / s < b / s
  {
    assert b / s - a / s == (b - a) / s;
  }

  lemma DivAtMost(a: real, b: real, s: real)
    requires s > 0.0 && a <= b
    ensures a / s <= b / s
  {
    assert b / s - a / s == (b - a) / s;
  }

  /** One fallback segment: it starts at its window, lasts a positive time of at most one window, and ends inside the audio. */
  lemma FallbackSegmentFacts(len: nat, sampleRate: nat, i: nat)
    requires sampleRate > 0 && i < len
    ensures var seg := FallbackSegment(len, sampleRate, i);
      seg.startTime == i as real / sampleRate as real
      && seg.startTime < seg.endTime
      && seg.endTime <= (i + WindowSeconds * sampleRate) as real / sampleRate as real
      && seg.endTime <= len as real / sampleRate as real
      && seg.endTime - seg.startTime <= WindowSeconds as real
      && seg.confidence == FallbackConfidence
  {
    var sr := sampleRate as real;
    var size := WindowSeconds * sampleRate;
    DivLess(i as real, (i + size) as real, sr);
    DivLess(i as real, len as real, sr);
    assert (i + size) as real / sr - i as real / sr == WindowSeconds as real by {
      assert (i + size) as real / sr - i as real / sr == size as real / sr;
      assert size as real == WindowSeconds as real * sr;
    }
  }

  /**
   * Segments in time order without overlap, each starting at or after `lo`, ending by `hi`,
   * lasting at most one window and carrying the fallback confidence.
   */
  predicate FallbackShaped(r: seq<SpeakerSegment>, lo: real, hi: real)
  {
    Ordered(r)
    && forall k :: 0 <= k < |r| ==>
         lo <= r[k].startTime
         && r[k].endTime <= hi
         && r[k].endTime - r[k].startTime <= WindowSeconds as real
         && r[k].confidence == FallbackConfidence
  }

  /** A segment that ends before the rest starts can be put in front of it. */
  lemma ShapedCons(seg: SpeakerSegment, rest: seq<SpeakerSegment>, lo: real, mid: real, hi: real)
    requires FallbackShaped(rest, mid, hi)
    requires lo <= seg.startTime < seg.endTime <= mid && seg.endTime <= hi
    requires seg.endTime - seg.startTime <= WindowSeconds as real && seg.confidence == FallbackConfidence
    ensures FallbackShaped([seg] + rest, lo, hi)
  {
    var r := [seg] + rest;
    assert forall k :: 1 <= k < |r| ==> r[k] == rest[k - 1];
  }

  /**
   * The fallback's segments are in time order and do not overlap; each lies inside the
   * audio, lasts at most one window, starts at or after sample `i`, and carries the
   * fallback confidence.
   */
  lemma {:induction false} FallbackShape(audio: seq<real>, sampleRate: nat, rms: seq<real> -> real, i: nat)
    requires sampleRate > 0
    ensures FallbackShaped(FallbackFrom(audio, sampleRate, rms, i), i as real / sampleRate as real, |audio| as real / sampleRate as real)
    decreases |audio| - i
  {
    var size := WindowSeconds * sampleRate;
    var sr := sampleRate as real;
    if i < |audio| {
      var rest := FallbackFrom(audio, sampleRate, rms, i + size);
      FallbackShape(audio, sampleRate, rms, i + size);
      FallbackSegmentFacts(|audio|, sampleRate, i);
      DivAtMost(i as real, (i + size) as real, sr);
      var lo, mid, hi := i as real / sr, (i + size) as real / sr, |audio| as real / sr;
      assert FallbackShaped(rest, lo, hi) by {
        assert forall k :: 0 <= k < |rest| ==> lo <= rest[k].startTime;
      }
      var seg := FallbackSegment(|audio|, sampleRate, i);
      if rms(audio[i..WindowEnd(|audio|, sampleRate, i)]) > SpeechRms {
        assert FallbackFrom(audio, sampleRate, rms, i) == [seg] + rest;
        ShapedCons(seg, rest, lo, mid, hi);
      } else {
        assert FallbackFrom(audio, sampleRate, rms, i) == rest;
      }
    }
  }

  // ---------------------------------------------------------------------------
  // The pipeline and the shared diarize step
  // ---------------------------------------------------------------------------

  /** What the pyannote pipeline does with the audio: (start, end, label) tracks, or it raises. */
  datatype PipelineCall = Tracks(tracks: seq<(real, real, string)>) | PipelineRaised

  /** The segments built from the pipeline's tracks, in track order. */
  function PipelineSegments(tracks: seq<(real, real, string)>): (r: seq<SpeakerSegment>)
    ensures |r| == |tracks|
    ensures forall k :: 0 <= k < |r| ==> r[k].confidence == PipelineConfidence && r[k].audio.None?
  {
    seq(|tracks|, k requires 0 <= k < |tracks| => SpeakerSegment(tracks[k].0, tracks[k].1, tracks[k].2, PipelineConfidence, None))
  }

  /** `diarize_audio`: the pipeline's tracks when it is loaded and succeeds, else the fallback. */
  function Diarized(isLoaded: bool, audio: seq<real>, sampleRate: nat, rms: seq<real> -> real, call: PipelineCall): seq<SpeakerSegment>
    requires sampleRate > 0
  {
    if isLoaded && call.Tracks? then PipelineSegments(call.tracks) else FallbackFrom(audio, sampleRate, rms, 0)
  }

  /** Every diarized segment carries full confidence from the pipeline or half from the fallback. */
  lemma DiarizedConfidence(isLoaded: bool, audio: seq<real>, sampleRate: nat, rms: seq<real> -> real, call: PipelineCall)
    requires sampleRate > 0
    ensures var r := Diarized(isLoaded, audio, sampleRate, rms, call);
      forall k :: 0 <= k < |r| ==> r[k].confidence == (if isLoaded && call.Tracks? then PipelineConfidence else FallbackConfidence)
  {
    FallbackShape(audio, sampleRate, rms, 0);
  }

  /** Every segment moved later by `base` seconds (the in-place `+= base_time` loop). */
  function Shift(segments: seq<SpeakerSegment>, base: real): (r: seq<SpeakerSegment>)
    ensures |r| == |segments|
  {
    seq(|segments|, k requires 0 <= k < |segments| => segments[k].(startTime := segments[k].startTime + base, endTime := segments[k].endTime + base))
  }

  /** Shifting keeps labels, durations and order; it only moves the segments in time. */
  lemma ShiftKeepsShape(segments: seq<SpeakerSegment>, base: real)
    ensures forall k :: 0 <= k < |segments| ==>
      Shift(segments, base)[k].speakerId == segments[k].speakerId
      && Shift(segments, base)[k].Duration() == segments[k].Duration()
      && Shift(segments, base)[k].startTime == segments[k].startTime + base
    ensures Ordered(segments) ==> Ordered(Shift(segments, base))
  {
    var r := Shift(segments, base);
    assert forall k :: 0 <= k < |r| ==> r[k].startTime == segments[k].startTime + base && r[k].endTime == segments[k].endTime + base;
  }

  // ---------------------------------------------------------------------------
  // process_voice_segments (finding: the sample rate is read from the wrong config)
  // ---------------------------------------------------------------------------

  /** The audio of the voice segments that carry audio, in order. */
  function AudioChunks(voiceSegments: seq<Vad.VoiceSegment>): (r: seq<seq<real>>)
    ensures r == [] <==> forall k :: 0 <= k < |voiceSegments| ==> voiceSegments[k].audio.None?
  {
    if voiceSegments == [] then []
    else
      var init := voiceSegments[..|voiceSegments| - 1];
      var last := voiceSegments[|voiceSegments| - 1];
      assert forall k :: 0 <= k < |init| ==> init[k] == voiceSegments[k];
      AudioChunks(init) + (match last.audio case Some(a) => [a] case None => [])
  }

  /** Start time of the first voice segment that carries audio. */
  function FirstAudioStart(voiceSegments: seq<Vad.VoiceSegment>): (r: Option<real>)
    ensures r.None? <==> AudioChunks(voiceSegments) == []
    ensures r.Some? ==> exists k :: (0 <= k < |voiceSegments| && voiceSegments[k].audio.Some? && r.value == voiceSegments[k].startTime
                                     && forall j :: 0 <= j < k ==> voiceSegments[j].audio.None?)
  {
    if voiceSegments == [] then None
    else
      var init := voiceSegments[..|voiceSegments| - 1];
      var last := voiceSegments[|voiceSegments| - 1];
      var b := FirstAudioStart(init);
      assert forall k :: 0 <= k < |init| ==> init[k] == voiceSegments[k];
      if b.Some? then b
      else if last.audio.Some? then Some(last.startTime)
      else None
  }

  /**
   * `process_voice_segments` as written: once any segment carries audio it reads
   * `sample_rate` from the model configuration, which has no such field, so the call
   * raises instead of diarizing; only inputs without audio return (nothing).
   */
  function ProcessVoiceSegmentsAsWritten(voiceSegments: seq<Vad.VoiceSegment>): (r: Result<seq<SpeakerSegment>>)
    ensures r.Raised? <==> exists k :: 0 <= k < |voiceSegments| && voiceSegments[k].audio.Some?
    ensures r.Ok? ==> r.value == []
  {
    if AudioChunks(voiceSegments) == [] then Ok([])
    else Raised("AttributeError: 'ModelConfig' object has no attribute 'sample_rate'")
  }

  /** A single voiced segment is enough to make the method as written raise. */
  lemma AsWrittenRaisesOnAnyAudio(start: real, end: real, audio: seq<real>)
    ensures ProcessVoiceSegmentsAsWritten([Vad.VoiceSegment(start, end, 1.0, Some(audio))]).Raised?
  {
    var vs := [Vad.VoiceSegment(start, end, 1.0, Some(audio))];
    assert vs[0].audio.Some?;
  }

  /** What `process_voice_segments` is meant to return, given the audio's sample rate. */
  function VoiceSegmentsDiarized(isLoaded: bool, voiceSegments: seq<Vad.VoiceSegment>, sampleRate: nat, rms: seq<real> -> real, call: PipelineCall): seq<SpeakerSegment>
    requires sampleRate > 0
  {
    match FirstAudioStart(voiceSegments)
    case None => []
    case Some(base) => Shift(Diarized(isLoaded, Vad.Concat(AudioChunks(voiceSegments)), sampleRate, rms, call), base)
  }

  /**
   * With the fallback, the corrected method's segments are in order and none starts
   * before the first voiced segment: the diarized audio is placed where it was heard.
   */
  lemma VoiceSegmentsFallbackPlacement(voiceSegments: seq<Vad.VoiceSegment>, sampleRate: nat, rms: seq<real> -> real, call: PipelineCall)
    requires sampleRate > 0
    requires FirstAudioStart(voiceSegments).Some?
    ensures var r := VoiceSegmentsDiarized(false, voiceSegments, sampleRate, rms, call);
      Ordered(r) && forall k :: 0 <= k < |r| ==> FirstAudioStart(voiceSegments).value <= r[k].startTime
  {
    var base := FirstAudioStart(voiceSegments).value;
    var audio := Vad.Concat(AudioChunks(voiceSegments));
    var d := FallbackFrom(audio, sampleRate, rms, 0);
    assert Diarized(false, audio, sampleRate, rms, call) == d;
    FallbackFromStart(audio, sampleRate, rms);
    ShiftPlacement(d, base);
  }

  /** From the start of the audio, the fallback's segments are in order and start at or after zero. */
  lemma FallbackFromStart(audio: seq<real>, sampleRate: nat, rms: seq<real> -> real)
    requires sampleRate > 0
    ensures var d := FallbackFrom(audio, sampleRate, rms, 0);
      Ordered(d) && forall k :: 0 <= k < |d| ==> 0.0 <= d[k].startTime
  {
    FallbackShape(audio, sampleRate, rms, 0);
    assert 0 as real / sampleRate as real == 0.0;
  }

  /** Ordered segments that start at or after zero, shifted by `base`, start at or after `base`. */
  lemma ShiftPlacement(d: seq<SpeakerSegment>, base: real)
    requires Ordered(d) && forall k :: 0 <= k < |d| ==> 0.0 <= d[k].startTime
    ensures var r := Shift(d, base);
      Ordered(r) && forall k :: 0 <= k < |r| ==> base <= r[k].startTime
  {
    ShiftKeepsShape(d, base);
  }

  // ---------------------------------------------------------------------------
  // Speaker roles by talk time
  // ---------------------------------------------------------------------------

  /** The labels named in a list of (label, talk time) entries. */
  function Ids(entries: seq<(string, real)>): set<string>
  {
    set k | 0 <= k < |entries| :: entries[k].0
  }

  /** No label appears twice, as in the keys of a dictionary. */
  predicate Distinct(entries: seq<(string, real)>)
  {
    forall i, j :: 0 <= i < j < |entries| ==> entries[i].0 != entries[j].0
  }

  lemma IdsCons(x: (string, real), entries: seq<(string, real)>)
    ensures Ids([x] + entries) == {x.0} + Ids(entries)
  {
    var r := [x] + entries;
    forall id | id in Ids(r) ensures id in {x.0} + Ids(entries) {
      var k :| 0 <= k < |r| && r[k].0 == id;
      if k > 0 {
        assert entries[k - 1].0 == id;
      }
    }
    forall id | id in {x.0} + Ids(entries) ensures id in Ids(r) {
      if id == x.0 {
        assert r[0].0 == id;
      } else {
        var k :| 0 <= k < |entries| && entries[k].0 == id;
        assert r[k + 1].0 == id;
      }
    }
  }

  /** The talk time recorded for `id`, or nothing when it has no entry. */
  function TimeIn(entries: seq<(string, real)>, id: string): real
  {
    if entries == [] then 0.0
    else if entries[0].0 == id then entries[0].1
    else TimeIn(entries[1..], id)
  }

  /** Add `d` seconds to `id`'s entry, creating it at the end when `id` is new (dictionary insertion order). */
  function AddTime(entries: seq<(string, real)>, id: string, d: real): seq<(string, real)>
  {
    if entries == [] then [(id, 0.0 + d)]
    else if entries[0].0 == id then [(id, entries[0].1 + d)] + entries[1..]
    else [entries[0]] + AddTime(entries[1..], id, d)
  }

  lemma AddTimeFacts(entries: seq<(string, real)>, id: string, d: real)
    requires Distinct(entries)
    ensures Distinct(AddTime(entries, id, d))
    ensures Ids(AddTime(entries, id, d)) == Ids(entries) + {id}
    ensures forall x :: TimeIn(AddTime(entries, id, d), x) == TimeIn(entries, x) + (if x == id then d else 0.0)
  {
    AddTimeIds(entries, id, d);
    AddTimeDistinct(entries, id, d);
    AddTimeTimes(entries, id, d);
  }

  lemma {:induction false} AddTimeIds(entries: seq<(string, real)>, id: string, d: real)
    ensures Ids(AddTime(entries, id, d)) == Ids(entries) + {id}
  {
    if entries != [] {
      IdsCons(entries[0], entries[1..]);
      assert entries == [entries[0]] + entries[1..];
      if entries[0].0 != id {
        AddTimeIds(entries[1..], id, d);
        IdsCons(entries[0], AddTime(entries[1..], id, d));
      } else {
        IdsCons((id, entries[0].1 + d), entries[1..]);
      }
    } else {
      IdsCons((id, 0.0 + d), []);
    }
  }

  lemma {:induction false} AddTimeDistinct(entries: seq<(string, real)>, id: string, d: real)
    requires Distinct(entries)
    ensures Distinct(AddTime(entries, id, d))
  {
    if entries != [] {
      var tail := entries[1..];
      assert forall k :: 0 <= k < |tail| ==> tail[k] == entries[k + 1];
      if entries[0].0 != id {
        AddTimeDistinct(tail, id, d);
        AddTimeIds(tail, id, d);
        IdsCons(entries[0], tail);
        assert entries == [entries[0]] + tail;
        var r := AddTime(entries, id, d);
        var rest := AddTime(tail, id, d);
        assert forall k :: 1 <= k < |r| ==> r[k] == rest[k - 1];
        forall i, j | 0 <= i < j < |r| ensures r[i].0 != r[j].0 {
          if i == 0 {
            assert r[j].0 in Ids(rest);
          }
        }
      }
    }
  }

  lemma {:induction false} AddTimeTimes(entries: seq<(string, real)>, id: string, d: real)
    ensures forall x :: TimeIn(AddTime(entries, id, d), x) == TimeIn(entries, x) + (if x == id then d else 0.0)
  {
    if entries != [] && entries[0].0 != id {
      AddTimeTimes(entries[1..], id, d);
    }
  }

  /** The talk time of every label, in order of first appearance (`speaker_times`). */
  function SpeakerTimes(segments: seq<SpeakerSegment>): seq<(string, real)>
  {
    if segments == [] then []
    else AddTime(SpeakerTimes(segments[..|segments| - 1]), segments[|segments| - 1].speakerId, segments[|segments| - 1].Duration())
  }

  /** The labels heard in `segments`. */
  function Heard(segments: seq<SpeakerSegment>): set<string>
  {
    set k | 0 <= k < |segments| :: segments[k].speakerId
  }

  /** Total duration of the segments labelled `id`. */
  function TalkOf(segments: seq<SpeakerSegment>, id: string): real
  {
    if segments == [] then 0.0
    else TalkOf(segments[..|segments| - 1], id) + (if segments[|segments| - 1].speakerId == id then segments[|segments| - 1].Duration() else 0.0)
  }

  /** `speaker_times` holds each heard label once, with the summed duration of its segments. */
  lemma {:induction false} SpeakerTimesFacts(segments: seq<SpeakerSegment>)
    ensures Distinct(SpeakerTimes(segments))
    ensures Ids(SpeakerTimes(segments)) == Heard(segments)
    ensures forall x :: TimeIn(SpeakerTimes(segments), x) == TalkOf(segments, x)
  {
    if segments != [] {
      var init := segments[..|segments| - 1];
      var last := segments[|segments| - 1];
      SpeakerTimesFacts(init);
      AddTimeFacts(SpeakerTimes(init), last.speakerId, last.Duration());
      assert Heard(segments) == Heard(init) + {last.speakerId} by {
        assert forall k :: 0 <= k < |init| ==> init[k] == segments[k];
      }
    }
  }

  /** A distinct entry's time is what `TimeIn` finds for its label. */
  lemma {:induction false} TimeInAt(entries: seq<(string, real)>, i: nat)
    requires Distinct(entries) && i < |entries|
    ensures TimeIn(entries, entries[i].0) == entries[i].1
  {
    if i > 0 {
      assert Distinct(entries[1..]) by {
        assert forall k :: 0 <= k < |entries[1..]| ==> entries[1..][k] == entries[k + 1];
      }
      TimeInAt(entries[1..], i - 1);
    }
  }

  /** Pairwise non-increasing talk time: what `sorted(..., reverse=True)` produces. */
  predicate Descending(entries: seq<(string, real)>)
  {
    forall i, j :: 0 <= i < j < |entries| ==> entries[i].1 >= entries[j].1
  }

  /** Insert into a descending list after every entry with at least as much time (keeps the sort stable). */
  function Insert(sorted: seq<(string, real)>, x: (string, real)): seq<(string, real)>
  {
    if sorted == [] then [x]
    else if sorted[0].1 >= x.1 then [sorted[0]] + Insert(sorted[1..], x)
    else [x] + sorted
  }

  lemma {:induction false} InsertMembers(sorted: seq<(string, real)>, x: (string, real))
    ensures |Insert(sorted, x)| == |sorted| + 1
    ensures forall e :: e in Insert(sorted, x) <==> e in sorted || e == x
    ensures Ids(Insert(sorted, x)) == Ids(sorted) + {x.0}
  {
    if sorted == [] {
      IdsCons(x, []);
    } else {
      var tail := sorted[1..];
      assert sorted == [sorted[0]] + tail;
      IdsCons(sorted[0], tail);
      if sorted[0].1 >= x.1 {
        InsertMembers(tail, x);
        IdsCons(sorted[0], Insert(tail, x));
      } else {
        IdsCons(x, sorted);
      }
    }
  }

  lemma {:induction false} InsertDescending(sorted: seq<(string, real)>, x: (string, real))
    requires Descending(sorted)
    ensures Descending(Insert(sorted, x))
  {
    var r := Insert(sorted, x);
    if sorted != [] {
      var tail := sorted[1..];
      assert forall k :: 0 <= k < |tail| ==> tail[k] == sorted[k + 1];
      if sorted[0].1 >= x.1 {
        var rest := Insert(tail, x);
        InsertDescending(tail, x);
        InsertMembers(tail, x);
        assert forall k :: 1 <= k < |r| ==> r[k] == rest[k - 1];
        forall i, j | 0 <= i < j < |r| ensures r[i].1 >= r[j].1 {
          if i == 0 {
            assert rest[j - 1] in tail || rest[j - 1] == x;
          }
        }
      } else {
        assert forall k :: 1 <= k < |r| ==> r[k] == sorted[k - 1];
      }
    }
  }

  lemma {:induction false} InsertDistinct(sorted: seq<(string, real)>, x: (string, real))
    requires Distinct(sorted) && x.0 !in Ids(sorted)
    ensures Distinct(Insert(sorted, x))
  {
    var r := Insert(sorted, x);
    if sorted != [] {
      var tail := sorted[1..];
      assert sorted == [sorted[0]] + tail;
      assert forall k :: 0 <= k < |tail| ==> tail[k] == sorted[k + 1];
      IdsCons(sorted[0], tail);
      if sorted[0].1 >= x.1 {
        var rest := Insert(tail, x);
        InsertDistinct(tail, x);
        InsertMembers(tail, x);
        assert sorted[0].0 !in Ids(tail);
        assert forall k :: 1 <= k < |r| ==> r[k] == rest[k - 1];
        forall i, j | 0 <= i < j < |r| ensures r[i].0 != r[j].0 {
          if i == 0 {
            assert r[j].0 in Ids(rest);
          }
        }
      } else {
        assert forall k :: 1 <= k < |r| ==> r[k] == sorted[k - 1];
        forall i, j | 0 <= i < j < |r| ensures r[i].0 != r[j].0 {
          if i == 0 {
            assert r[j].0 in Ids(sorted);
          }
        }
      }
    }
  }

  /** A stable sort by talk time, most first (`sorted(..., key=time, reverse=True)`). */
  function SortByTime(entries: seq<(string, real)>): seq<(string, real)>
  {
    if entries == [] then []
    else Insert(SortByTime(entries[..|entries| - 1]), entries[|entries| - 1])
  }

  /** The sort yields a descending list holding exactly the entries it was given. */
  lemma {:induction false} SortFacts(entries: seq<(string, real)>)
    ensures |SortByTime(entries)| == |entries|
    ensures forall e :: e in SortByTime(entries) <==> e in entries
    ensures Descending(SortByTime(entries))
    ensures Ids(SortByTime(entries)) == Ids(entries)
    ensures Distinct(entries) ==> Distinct(SortByTime(entries))
  {
    if entries != [] {
      var init := entries[..|entries| - 1];
      var last := entries[|entries| - 1];
      SortFacts(init);
      InsertMembers(SortByTime(init), last);
      InsertDescending(SortByTime(init), last);
      assert entries == init + [last];
      assert Ids(entries) == Ids(init) + {last.0} by {
        forall id | id in Ids(entries) ensures id in Ids(init) + {last.0} {
          var k :| 0 <= k < |entries| && entries[k].0 == id;
          if k < |init| {
            assert init[k].0 == id;
          }
        }
        forall id | id in Ids(init) ensures id in Ids(entries) {
          var k :| 0 <= k < |init| && init[k].0 == id;
          assert entries[k].0 == id;
        }
        assert entries[|init|].0 == last.0;
      }
      if Distinct(entries) {
        assert Distinct(init);
        assert last.0 !in Ids(init) by {
          assert forall k :: 0 <= k < |init| ==> init[k] == entries[k];
        }
        InsertDistinct(SortByTime(init), last);
      }
    }
  }

  /** The role the heuristic gives the speaker ranked `k`-th by talk time (from 0). */
  function RoleForRank(k: nat): Speaker
  {
    if k == 0 then SalesRep else if k == 1 then Customer else Unknown
  }

  /** Assign roles down the ranking, one dictionary store per entry. */
  function Assign(roles: map<string, Speaker>, ranked: seq<(string, real)>, k: nat): map<string, Speaker>
    decreases |ranked|
  {
    if ranked == [] then roles
    else Assign(roles[ranked[0].0 := RoleForRank(k)], ranked[1..], k + 1)
  }

  lemma AssignFacts(roles: map<string, Speaker>, ranked: seq<(string, real)>, k: nat)
    requires Distinct(ranked)
    ensures Assign(roles, ranked, k).Keys == roles.Keys + Ids(ranked)
    ensures forall j :: 0 <= j < |ranked| ==> Assign(roles, ranked, k)[ranked[j].0] == RoleForRank(k + j)
    ensures forall id :: id in roles && id !in Ids(ranked) ==> Assign(roles, ranked, k)[id] == roles[id]
  {
    AssignKeys(roles, ranked, k);
    forall j | 0 <= j < |ranked|
      ensures Assign(roles, ranked, k)[ranked[j].0] == RoleForRank(k + j)
    {
      AssignRanked(roles, ranked, k, j);
    }
    forall id | id in roles && id !in Ids(ranked)
      ensures Assign(roles, ranked, k)[id] == roles[id]
    {
      AssignOther(roles, ranked, k, id);
    }
  }

  /** The assignment stores exactly the ranked labels on top of the existing ones. */
  lemma {:induction false} AssignKeys(roles: map<string, Speaker>, ranked: seq<(string, real)>, k: nat)
    ensures Assign(roles, ranked, k).Keys == roles.Keys + Ids(ranked)
    decreases |ranked|
  {
    if ranked != [] {
      var tail := ranked[1..];
      assert ranked == [ranked[0]] + tail;
      AssignKeys(roles[ranked[0].0 := RoleForRank(k)], tail, k + 1);
      IdsCons(ranked[0], tail);
    }
  }

  /** A label the ranking does not name keeps the role it had. */
  lemma {:induction false} AssignOther(roles: map<string, Speaker>, ranked: seq<(string, real)>, k: nat, id: string)
    requires id in roles && id !in Ids(ranked)
    ensures id in Assign(roles, ranked, k) && Assign(roles, ranked, k)[id] == roles[id]
    decreases |ranked|
  {
    if ranked != [] {
      var tail := ranked[1..];
      assert ranked == [ranked[0]] + tail;
      IdsCons(ranked[0], tail);
      AssignOther(roles[ranked[0].0 := RoleForRank(k)], tail, k + 1, id);
    }
  }

  /** With distinct labels, the label ranked `j`-th gets the role of rank `k + j`. */
  lemma {:induction false} AssignRanked(roles: map<string, Speaker>, ranked: seq<(string, real)>, k: nat, j: nat)
    requires Distinct(ranked) && j < |ranked|
    ensures ranked[j].0 in Assign(roles, ranked, k) && Assign(roles, ranked, k)[ranked[j].0] == RoleForRank(k + j)
    decreases |ranked|
  {
    var tail := ranked[1..];
    var next := roles[ranked[0].0 := RoleForRank(k)];
    assert ranked == [ranked[0]] + tail;
    if j == 0 {
      IdsCons(ranked[0], tail);
      assert ranked[0].0 !in Ids(tail);
      AssignOther(next, tail, k + 1, ranked[0].0);
    } else {
      assert ranked[j] == tail[j - 1];
      assert Distinct(tail) by {
        assert forall i :: 0 <= i < |tail| ==> tail[i] == ranked[i + 1];
      }
      AssignRanked(next, tail, k + 1, j - 1);
    }
  }

  /** `identify_speaker_roles`: rank the labels by talk time; first is the rep, second the customer. */
  function IdentifiedRoles(segments: seq<SpeakerSegment>): map<string, Speaker>
  {
    Assign(map[], SortByTime(SpeakerTimes(segments)), 0)
  }

  /** The ranking behind `IdentifiedRoles`. */
  function Ranking(segments: seq<SpeakerSegment>): seq<(string, real)>
  {
    SortByTime(SpeakerTimes(segments))
  }

  /** Each labelled speaker sits at one place in the ranking, with its talk time and the role of that rank. */
  lemma RankOf(segments: seq<SpeakerSegment>)
    ensures IdentifiedRoles(segments).Keys == Heard(segments) == Ids(Ranking(segments))
    ensures Descending(Ranking(segments)) && Distinct(Ranking(segments))
    ensures forall p :: 0 <= p < |Ranking(segments)| ==>
      IdentifiedRoles(segments)[Ranking(segments)[p].0] == RoleForRank(p)
      && TalkOf(segments, Ranking(segments)[p].0) == Ranking(segments)[p].1
  {
    var t := SpeakerTimes(segments);
    var ranked := SortByTime(t);
    SpeakerTimesFacts(segments);
    SortFacts(t);
    AssignFacts(map[], ranked, 0);
    forall p | 0 <= p < |ranked|
      ensures TalkOf(segments, ranked[p].0) == ranked[p].1
    {
      assert ranked[p] in t;
      var i :| 0 <= i < |t| && t[i] == ranked[p];
      TimeInAt(t, i);
    }
  }

  /**
   * Every heard label gets a role; the one sales rep talks at least as much as anyone,
   * the one customer at least as much as anyone but the rep; a rep exists whenever
   * anyone was heard and a customer whenever two labels were.
   */
  lemma RolesByTalkTime(segments: seq<SpeakerSegment>)
    ensures IdentifiedRoles(segments).Keys == Heard(segments)
    ensures forall a, b :: (a in IdentifiedRoles(segments) && b in IdentifiedRoles(segments) && IdentifiedRoles(segments)[a] == SalesRep)
              ==> TalkOf(segments, a) >= TalkOf(segments, b)
    ensures forall a, b :: (a in IdentifiedRoles(segments) && b in IdentifiedRoles(segments) && IdentifiedRoles(segments)[a] == Customer
              && IdentifiedRoles(segments)[b] != SalesRep) ==> TalkOf(segments, a) >= TalkOf(segments, b)
    ensures forall a, b :: (a in IdentifiedRoles(segments) && b in IdentifiedRoles(segments) && IdentifiedRoles(segments)[a] == IdentifiedRoles(segments)[b]
              && IdentifiedRoles(segments)[a] != Unknown) ==> a == b
    ensures segments != [] ==> SalesRep in IdentifiedRoles(segments).Values
    ensures |Heard(segments)| >= 2 ==> Customer in IdentifiedRoles(segments).Values
  {
    RolesRanked(segments);
    RolesPresent(segments);
  }

  /** Roles follow the ranking: the rep out-talks everyone, the customer everyone but the rep, and each is unique. */
  lemma RolesRanked(segments: seq<SpeakerSegment>)
    ensures forall a, b :: (a in IdentifiedRoles(segments) && b in IdentifiedRoles(segments) && IdentifiedRoles(segments)[a] == SalesRep)
              ==> TalkOf(segments, a) >= TalkOf(segments, b)
    ensures forall a, b :: (a in IdentifiedRoles(segments) && b in IdentifiedRoles(segments) && IdentifiedRoles(segments)[a] == Customer
              && IdentifiedRoles(segments)[b] != SalesRep) ==> TalkOf(segments, a) >= TalkOf(segments, b)
    ensures forall a, b :: (a in IdentifiedRoles(segments) && b in IdentifiedRoles(segments) && IdentifiedRoles(segments)[a] == IdentifiedRoles(segments)[b]
              && IdentifiedRoles(segments)[a] != Unknown) ==> a == b
  {
    var ranked := Ranking(segments);
    var roles := IdentifiedRoles(segments);
    RankOf(segments);
    forall a | a in roles
      ensures exists p :: 0 <= p < |ranked| && ranked[p].0 == a
    {
      assert a in Ids(ranked);
    }
  }

  /** Every heard label has a role; someone is the rep, and with two labels someone is the customer. */
  lemma RolesPresent(segments: seq<SpeakerSegment>)
    ensures IdentifiedRoles(segments).Keys == Heard(segments)
    ensures segments != [] ==> SalesRep in IdentifiedRoles(segments).Values
    ensures |Heard(segments)| >= 2 ==> Customer in IdentifiedRoles(segments).Values
  {
    var ranked := Ranking(segments);
    var roles := IdentifiedRoles(segments);
    RankOf(segments);
    if segments != [] {
      assert segments[0].speakerId in Heard(segments);
      assert roles[ranked[0].0] == SalesRep;
    }
    if |Heard(segments)| >= 2 {
      IdsSize(ranked);
      assert roles[ranked[1].0] == Customer;
    }
  }

  lemma {:induction false} IdsSize(entries: seq<(string, real)>)
    ensures |Ids(entries)| <= |entries|
  {
    if entries != [] {
      IdsSize(entries[1..]);
      IdsCons(entries[0], entries[1..]);
      assert entries == [entries[0]] + entries[1..];
    }
  }

  /** A lone label is the sales rep. */
  lemma LoneSpeakerIsSalesRep(segments: seq<SpeakerSegment>, id: string)
    requires segments != [] && forall k :: 0 <= k < |segments| ==> segments[k].speakerId == id
    ensures IdentifiedRoles(segments) == map[id := SalesRep]
  {
    RolesByTalkTime(segments);
    assert Heard(segments) == {id};
    assert IdentifiedRoles(segments).Values == {SalesRep} by {
      assert id in IdentifiedRoles(segments);
    }
  }

  /** `identify_speaker_roles`, with its accumulation loop and its assignment loop. */
  method IdentifySpeakerRoles(segments: seq<SpeakerSegment>) returns (roles: map<string, Speaker>)
    ensures roles == IdentifiedRoles(segments)
  {
    if segments == [] {
      return map[];
    }
    var times: seq<(string, real)> := [];
    for i := 0 to |segments|
      invariant times == SpeakerTimes(segments[..i])
    {
      times := AddTime(times, segments[i].speakerId, segments[i].Duration());
      assert segments[..i + 1][..i] == segments[..i];
    }
    assert segments[..|segments|] == segments;
    var ranked := SortByTime(times);
    roles := map[];
    for k := 0 to |ranked|
      invariant Assign(roles, ranked[k..], k) == Assign(map[], ranked, 0)
    {
      assert ranked[k..][1..] == ranked[k + 1..];
      roles := roles[ranked[k].0 := RoleForRank(k)];
    }
  }

  // ---------------------------------------------------------------------------
  // Speaker profiles
  // ---------------------------------------------------------------------------

  /**
   * The observable content of one `SpeakerProfile` as the diarizer uses it: role, talk total
   * ("total_duration"), mean segment length ("average_segment_length"), segment count
   * ("segments_count"), confidence and update count.
   */
  datatype ProfileView = ProfileView(speaker: Speaker, total: real, average: real, count: real, confidence: real, samples: int)

  /** A profile as the diarizer keeps it: the segment count is one above the number of updates. */
  predicate Shaped(v: ProfileView)
  {
    v.samples >= 0 && v.count == (v.samples + 1) as real
  }

  /** The mean segment length times the count is the total talk time. */
  predicate MeanConsistent(v: ProfileView)
  {
    v.average * v.count == v.total
  }

  /** The profile made for a label's first segment. */
  function NewProfileView(role: Speaker, d: real): (v: ProfileView)
    ensures Shaped(v) && MeanConsistent(v) && v.speaker == role && v.total == d
  {
    ProfileView(role, d, d, 1.0, 0.0, 0)
  }

  /** The mean of `count` values averaging `average`, and one more value `d`. */
  function RunningMean(average: real, count: real, d: real): (m: real)
    ensures count + 1.0 != 0.0 ==> m * (count + 1.0) == average * count + d
  {
    if count + 1.0 == 0.0 then average else (average * count + d) / (count + 1.0)
  }

  /** The profile after one more segment of `d` seconds: total, running mean, count, then `update_profile`. */
  function UpdatedView(v: ProfileView, d: real): (r: ProfileView)
    ensures r.speaker == v.speaker && r.samples == v.samples + 1 && r.total == v.total + d
    ensures Shaped(v) ==> Shaped(r)
    ensures Shaped(v) && MeanConsistent(v) ==> MeanConsistent(r)
  {
    v.(total := v.total + d, average := RunningMean(v.average, v.count, d), count := v.count + 1.0,
       samples := v.samples + 1, confidence := ProfileConfidence(v.samples + 1))
  }

  /** The role looked up with `role_mapping.get(id, Speaker.UNKNOWN)`. */
  function RoleIn(roles: map<string, Speaker>, id: string): Speaker
  {
    if id in roles then roles[id] else Unknown
  }

  /** One pass of the profile loop: create the label's profile or fold the segment into it. */
  function Absorb(profiles: map<string, ProfileView>, seg: SpeakerSegment, role: Speaker): (r: map<string, ProfileView>)
    ensures r.Keys == profiles.Keys + {seg.speakerId}
    ensures forall id | id in profiles :: r[id].speaker == profiles[id].speaker
  {
    if seg.speakerId in profiles then profiles[seg.speakerId := UpdatedView(profiles[seg.speakerId], seg.Duration())]
    else profiles[seg.speakerId := NewProfileView(role, seg.Duration())]
  }

  /** The profile loop over a batch of segments with the batch's role mapping. */
  function AbsorbAll(profiles: map<string, ProfileView>, segments: seq<SpeakerSegment>, roles: map<string, Speaker>): (r: map<string, ProfileView>)
  {
    if segments == [] then profiles
    else
      var last := segments[|segments| - 1];
      Absorb(AbsorbAll(profiles, segments[..|segments| - 1], roles), last, RoleIn(roles, last.speakerId))
  }

  /** The profile loop after one more segment of the batch. */
  lemma AbsorbAllStep(profiles: map<string, ProfileView>, segments: seq<SpeakerSegment>, roles: map<string, Speaker>, i: nat)
    requires i < |segments|
    ensures AbsorbAll(profiles, segments[..i + 1], roles)
      == Absorb(AbsorbAll(profiles, segments[..i], roles), segments[i], RoleIn(roles, segments[i].speakerId))
  {
    assert segments[..i + 1][..i] == segments[..i];
  }

  /** Every profile stays in the diarizer's shape. */
  lemma {:induction false} AbsorbAllShaped(profiles: map<string, ProfileView>, segments: seq<SpeakerSegment>, roles: map<string, Speaker>)
    requires forall id | id in profiles :: Shaped(profiles[id])
    ensures forall id | id in AbsorbAll(profiles, segments, roles) :: Shaped(AbsorbAll(profiles, segments, roles)[id])
  {
    if segments != [] {
      var init := segments[..|segments| - 1];
      var last := segments[|segments| - 1];
      AbsorbAllShaped(profiles, init, roles);
      var before := AbsorbAll(profiles, init, roles);
      var after := AbsorbAll(profiles, segments, roles);
      assert after == Absorb(before, last, RoleIn(roles, last.speakerId));
      forall id | id in after
        ensures Shaped(after[id])
      {
        if id != last.speakerId {
          assert after[id] == before[id];
        }
      }
    }
  }

  /** Profiles gain exactly the batch's new labels. */
  lemma {:induction false} AbsorbAllKeys(profiles: map<string, ProfileView>, segments: seq<SpeakerSegment>, roles: map<string, Speaker>)
    ensures AbsorbAll(profiles, segments, roles).Keys == profiles.Keys + Heard(segments)
  {
    if segments != [] {
      var init := segments[..|segments| - 1];
      var last := segments[|segments| - 1];
      AbsorbAllKeys(profiles, init, roles);
      assert Heard(segments) == Heard(init) + {last.speakerId} by {
        assert forall k :: 0 <= k < |init| ==> init[k] == segments[k];
      }
    }
  }

  /** A known label keeps its role and a new label gets its role in the batch. */
  lemma {:induction false} AbsorbAllRoles(profiles: map<string, ProfileView>, segments: seq<SpeakerSegment>, roles: map<string, Speaker>)
    ensures forall id | id in profiles :: id in AbsorbAll(profiles, segments, roles) && AbsorbAll(profiles, segments, roles)[id].speaker == profiles[id].speaker
    ensures forall id | id in Heard(segments) && id !in profiles ::
      id in AbsorbAll(profiles, segments, roles) && AbsorbAll(profiles, segments, roles)[id].speaker == RoleIn(roles, id)
  {
    AbsorbAllKeys(profiles, segments, roles);
    if segments != [] {
      var init := segments[..|segments| - 1];
      var last := segments[|segments| - 1];
      AbsorbAllRoles(profiles, init, roles);
      AbsorbAllKeys(profiles, init, roles);
      var before := AbsorbAll(profiles, init, roles);
      var after := AbsorbAll(profiles, segments, roles);
      assert after == Absorb(before, last, RoleIn(roles, last.speakerId));
      forall id | id in Heard(segments) && id !in profiles
        ensures after[id].speaker == RoleIn(roles, id)
      {
        if id in before {
          assert after[id].speaker == before[id].speaker;
          assert id in Heard(init);
        } else {
          assert id == last.speakerId by {
            assert forall k :: 0 <= k < |init| ==> init[k] == segments[k];
          }
        }
      }
    }
  }

  /** Every label's talk total grows by exactly its talk time in the batch. */
  lemma {:induction false} AbsorbAllTotals(profiles: map<string, ProfileView>, segments: seq<SpeakerSegment>, roles: map<string, Speaker>)
    ensures forall id | id in AbsorbAll(profiles, segments, roles) ::
      AbsorbAll(profiles, segments, roles)[id].total == (if id in profiles then profiles[id].total else 0.0) + TalkOf(segments, id)
  {
    if segments != [] {
      var init := segments[..|segments| - 1];
      var last := segments[|segments| - 1];
      AbsorbAllTotals(profiles, init, roles);
      AbsorbAllKeys(profiles, init, roles);
      var before := AbsorbAll(profiles, init, roles);
      var after := AbsorbAll(profiles, segments, roles);
      forall id | id in after
        ensures after[id].total == (if id in profiles then profiles[id].total else 0.0) + TalkOf(segments, id)
      {
        if id == last.speakerId && id !in before {
          assert id !in profiles && id !in Heard(init);
          TalkOfUnheard(init, id);
        }
      }
    }
  }

  lemma {:induction false} TalkOfUnheard(segments: seq<SpeakerSegment>, id: string)
    requires id !in Heard(segments)
    ensures TalkOf(segments, id) == 0.0
  {
    if segments != [] {
      var init := segments[..|segments| - 1];
      assert id != segments[|segments| - 1].speakerId;
      assert Heard(init) <= Heard(segments) by {
        assert forall k :: 0 <= k < |init| ==> init[k] == segments[k];
      }
      TalkOfUnheard(init, id);
    }
  }

  /** The running mean stays the talk total divided by the segment count. */
  lemma {:induction false} AbsorbAllMean(profiles: map<string, ProfileView>, segments: seq<SpeakerSegment>, roles: map<string, Speaker>)
    requires forall id | id in profiles :: Shaped(profiles[id]) && MeanConsistent(profiles[id])
    ensures forall id | id in AbsorbAll(profiles, segments, roles) :: MeanConsistent(AbsorbAll(profiles, segments, roles)[id])
  {
    if segments != [] {
      var init := segments[..|segments| - 1];
      var last := segments[|segments| - 1];
      AbsorbAllMean(profiles, init, roles);
      AbsorbAllShaped(profiles, init, roles);
      var before := AbsorbAll(profiles, init, roles);
      var after := AbsorbAll(profiles, segments, roles);
      assert after == Absorb(before, last, RoleIn(roles, last.speakerId));
      forall id | id in after
        ensures MeanConsistent(after[id])
      {
        if id != last.speakerId {
          assert after[id] == before[id];
        } else if id in before {
          assert after[id] == UpdatedView(before[id], last.Duration());
        } else {
          assert after[id] == NewProfileView(RoleIn(roles, last.speakerId), last.Duration());
        }
      }
    }
  }

  /** A batch's new labels get their batch roles, so the rep of a fresh batch is its top talker. */
  lemma NewSpeakersGetBatchRoles(profiles: map<string, ProfileView>, segments: seq<SpeakerSegment>)
    ensures forall id | id in Heard(segments) && id !in profiles ::
      id in IdentifiedRoles(segments) && id in AbsorbAll(profiles, segments, IdentifiedRoles(segments))
      && AbsorbAll(profiles, segments, IdentifiedRoles(segments))[id].speaker == IdentifiedRoles(segments)[id]
  {
    AbsorbAllRoles(profiles, segments, IdentifiedRoles(segments));
    RankOf(segments);
  }

  // ---------------------------------------------------------------------------
  // Overlap lookup and the real-time buffer
  // ---------------------------------------------------------------------------

  /** The closed intervals meet (touching ends count). */
  predicate Overlaps(s: SpeakerSegment, start: real, end: real)
  {
    s.startTime <= end && s.endTime >= start
  }

  function OverlapLength(s: SpeakerSegment, start: real, end: real): real
  {
    Min(s.endTime, end) - Max(s.startTime, start)
  }

  /** Index of the stored segment with the largest overlap, the first such on ties (`max` keeps the first). */
  /** Extending the scan by segment `i` keeps the best so far unless `i` overlaps strictly more. */
  lemma BestOverlapStep(segments: seq<SpeakerSegment>, i: nat, start: real, end: real)
    requires i < |segments|
    ensures var b := BestOverlap(segments[..i], start, end);
      BestOverlap(segments[..i + 1], start, end)
      == if Overlaps(segments[i], start, end) && (b.None? || OverlapLength(segments[i], start, end) > OverlapLength(segments[b.value], start, end))
         then Some(i) else b
  {
    assert segments[..i + 1][..i] == segments[..i];
    var b := BestOverlap(segments[..i], start, end);
    assert b.Some? ==> segments[..i + 1][b.value] == segments[b.value];
  }

  function BestOverlap(segments: seq<SpeakerSegment>, start: real, end: real): (r: Option<nat>)
    ensures r.None? <==> forall k :: 0 <= k < |segments| ==> !Overlaps(segments[k], start, end)
    ensures r.Some? ==> r.value < |segments| && Overlaps(segments[r.value], start, end)
    ensures r.Some? ==> forall k :: 0 <= k < |segments| && Overlaps(segments[k], start, end) ==>
      OverlapLength(segments[k], start, end) <= OverlapLength(segments[r.value], start, end)
    ensures r.Some? ==> forall k :: 0 <= k < r.value && Overlaps(segments[k], start, end) ==>
      OverlapLength(segments[k], start, end) < OverlapLength(segments[r.value], start, end)
  {
    if segments == [] then None
    else
      var n := |segments| - 1;
      var b := BestOverlap(segments[..n], start, end);
      assert forall k :: 0 <= k < n ==> segments[..n][k] == segments[k];
      if Overlaps(segments[n], start, end) && (b.None? || OverlapLength(segments[n], start, end) > OverlapLength(segments[b.value], start, end))
      then Some(n)
      else b
  }

  /** Buffered chunks whose timestamp is at least `cutoff`, in order. */
  function Recent(buffer: seq<(seq<real>, real)>, cutoff: real): (r: seq<(seq<real>, real)>)
    ensures |r| <= |buffer|
    ensures forall e :: e in r <==> e in buffer && e.1 >= cutoff
    ensures buffer != [] && buffer[|buffer| - 1].1 >= cutoff ==> r != [] && r[|r| - 1] == buffer[|buffer| - 1]
  {
    if buffer == [] then []
    else
      var init := buffer[..|buffer| - 1];
      var last := buffer[|buffer| - 1];
      assert buffer == init + [last];
      Recent(init, cutoff) + (if last.1 >= cutoff then [last] else [])
  }

  /** Seconds of audio the real-time buffer keeps. */
  const BufferDuration: real := 30.0
  /** The buffer is diarized when its length is a positive multiple of this. */
  const ChunksPerTick: nat := 10

  predicate ProcessingTick(n: nat)
  {
    n >= ChunksPerTick && n % ChunksPerTick == 0
  }

  /** The buffered chunks joined end to end. */
  function BufferedAudio(buffer: seq<(seq<real>, real)>): seq<real>
  {
    Vad.Concat(seq(|buffer|, k requires 0 <= k < |buffer| => buffer[k].0))
  }

  /** After a chunk arrives the buffer holds it, and nothing older than the buffer duration. */
  lemma BufferWindow(buffer: seq<(seq<real>, real)>, chunk: seq<real>, timestamp: real)
    ensures var r := Recent(buffer + [(chunk, timestamp)], timestamp - BufferDuration);
      r != [] && r[|r| - 1] == (chunk, timestamp)
      && forall k :: 0 <= k < |r| ==> timestamp - BufferDuration <= r[k].1
  {
    var r := Recent(buffer + [(chunk, timestamp)], timestamp - BufferDuration);
    assert forall k :: 0 <= k < |r| ==> r[k] in r;
  }

  // ---------------------------------------------------------------------------
  // The diarizer object
  // ---------------------------------------------------------------------------

  /** A profile object whose dictionaries hold the three statistics the diarizer reads. */
  ghost predicate Keyed(p: SpeakerProfile)
    reads p
  {
    TotalDuration in p.voiceCharacteristics && AverageSegmentLength in p.speakingPatterns && SegmentsCount in p.speakingPatterns
  }

  /** The observable content of a profile object. */
  ghost function View(p: SpeakerProfile): ProfileView
    reads p
    requires Keyed(p)
  {
    ProfileView(p.speaker, p.voiceCharacteristics[TotalDuration], p.speakingPatterns[AverageSegmentLength],
      p.speakingPatterns[SegmentsCount], p.confidence, p.samplesAnalyzed)
  }

  /** Distinct labels have distinct profile objects, each kept in the diarizer's shape. */
  ghost predicate ProfilesValid(profiles: map<string, SpeakerProfile>)
    reads profiles.Values
  {
    (forall a, b | a in profiles && b in profiles && a != b :: profiles[a] != profiles[b])
    && (forall id | id in profiles :: Keyed(profiles[id]) && Shaped(View(profiles[id])) && profiles[id].Valid())
  }

  /** The profile objects as values, label by label. */
  ghost function Views(profiles: map<string, SpeakerProfile>): map<string, ProfileView>
    reads profiles.Values
    requires ProfilesValid(profiles)
  {
    map id | id in profiles :: View(profiles[id])
  }

  /** Adding a new, separate, well-shaped profile object adds its view and keeps the profiles valid. */
  lemma ViewsAfterAdd(profiles: map<string, SpeakerProfile>, id: string, p: SpeakerProfile)
    requires ProfilesValid(profiles) && id !in profiles && p !in profiles.Values
    requires Keyed(p) && Shaped(View(p)) && p.Valid()
    ensures ProfilesValid(profiles[id := p])
    ensures Views(profiles[id := p]) == Views(profiles)[id := View(p)]
  {
    assert forall x | x in profiles :: profiles[x] in profiles.Values;
  }

  class SpeakerDiarization {
    /** Whether the pyannote pipeline loaded. */
    var isLoaded: bool
    var knownSpeakers: map<string, SpeakerProfile>
    var speakerSegments: seq<SpeakerSegment>
    /** (chunk, timestamp) pairs of the last thirty seconds. */
    var audioBuffer: seq<(seq<real>, real)>

    /** Each label has its own profile object, kept in the diarizer's shape. */
    ghost predicate Valid()
      reads this`knownSpeakers, knownSpeakers.Values
    {
      ProfilesValid(knownSpeakers)
    }

    /** The profiles as values, label by label. */
    ghost function Snapshot(): map<string, ProfileView>
      reads this`knownSpeakers, knownSpeakers.Values
      requires Valid()
    {
      Views(knownSpeakers)
    }

    /** `create_diarization_system`: `loaded` says whether the pipeline could be loaded. */
    constructor (loaded: bool)
      ensures Valid()
      ensures isLoaded == loaded && knownSpeakers == map[] && speakerSegments == [] && audioBuffer == []
    {
      isLoaded := loaded;
      knownSpeakers := map[];
      speakerSegments := [];
      audioBuffer := [];
    }

    /** `diarize_audio`. */
    method DiarizeAudio(audio: seq<real>, sampleRate: nat, rms: seq<real> -> real, call: PipelineCall) returns (segments: seq<SpeakerSegment>)
      requires sampleRate > 0
      ensures segments == Diarized(isLoaded, audio, sampleRate, rms, call)
    {
      if !isLoaded || call.PipelineRaised? {
        segments := FallbackDiarization(audio, sampleRate, rms);
      } else {
        segments := PipelineSegments(call.tracks);
      }
    }

    /**
     * `process_voice_segments`, corrected to take the audio's sample rate from its caller:
     * diarize the joined audio of the segments that carry audio and place the result at
     * the first such segment's start.
     */
    method ProcessVoiceSegments(voiceSegments: seq<Vad.VoiceSegment>, sampleRate: nat, rms: seq<real> -> real, call: PipelineCall)
      returns (segments: seq<SpeakerSegment>)
      requires sampleRate > 0
      ensures segments == VoiceSegmentsDiarized(isLoaded, voiceSegments, sampleRate, rms, call)
    {
      if voiceSegments == [] {
        return [];
      }
      var chunks: seq<seq<real>> := [];
      var base: Option<real> := None;
      for i := 0 to |voiceSegments|
        invariant chunks == AudioChunks(voiceSegments[..i]) && base == FirstAudioStart(voiceSegments[..i])
      {
        assert voiceSegments[..i + 1][..i] == voiceSegments[..i];
        if voiceSegments[i].audio.Some? {
          chunks := chunks + [voiceSegments[i].audio.value];
          if base.None? {
            base := Some(voiceSegments[i].startTime);
          }
        }
      }
      assert voiceSegments[..|voiceSegments|] == voiceSegments;
      if chunks == [] {
        return [];
      }
      segments := DiarizeAudio(Vad.Concat(chunks), sampleRate, rms, call);
      segments := ShiftSegments(segments, base.value);
    }

    /** Fold one segment into the profile of its label, creating the profile if the label is new. */
    method AbsorbSegment(seg: SpeakerSegment, role: Speaker, now: real)
      requires Valid()
      modifies this, knownSpeakers.Values
      ensures Valid()
      ensures Snapshot() == Absorb(old(Snapshot()), seg, role)
      ensures forall p | p in knownSpeakers.Values :: p in old(knownSpeakers.Values) || fresh(p)
      ensures isLoaded == old(isLoaded) && speakerSegments == old(speakerSegments) && audioBuffer == old(audioBuffer)
    {
      if seg.speakerId in knownSpeakers {
        FoldKnown(seg.speakerId, seg.Duration(), now);
      } else {
        AddProfile(seg.speakerId, role, seg.Duration(), now);
      }
    }

    /** The running-mean update of the known label `id`'s profile; the other profiles stay as they were. */
    method FoldKnown(id: string, d: real, now: real)
      requires Valid() && id in knownSpeakers
      modifies knownSpeakers[id]
      ensures Valid()
      ensures Snapshot() == old(Snapshot())[id := UpdatedView(old(Snapshot())[id], d)]
    {
      var p := knownSpeakers[id];
      FoldInto(p, d, now);
      assert forall x | x in knownSpeakers && x != id :: knownSpeakers[x] != p;
    }

    /** A fresh profile for the new label `id` holding its first segment of `d` seconds. */
    method AddProfile(id: string, role: Speaker, d: real, now: real)
      requires Valid() && id !in knownSpeakers
      modifies this`knownSpeakers
      ensures Valid()
      ensures Snapshot() == old(Snapshot())[id := NewProfileView(role, d)]
      ensures id in knownSpeakers && knownSpeakers == old(knownSpeakers)[id := knownSpeakers[id]] && fresh(knownSpeakers[id])
      ensures isLoaded == old(isLoaded) && speakerSegments == old(speakerSegments) && audioBuffer == old(audioBuffer)
    {
      ghost var before := Snapshot();
      var p := NewProfile(role, d, now);
      assert Views(knownSpeakers) == before;
      ViewsAfterAdd(knownSpeakers, id, p);
      ghost var after := Views(knownSpeakers[id := p]);
      knownSpeakers := knownSpeakers[id := p];
      assert Snapshot() == after;
    }

    /** `create_speaker_profiles`: fold the batch into the profiles using the batch's role mapping. */
    method CreateSpeakerProfiles(segments: seq<SpeakerSegment>, now: real)
      requires Valid()
      modifies this, knownSpeakers.Values
      ensures Valid()
      ensures Snapshot() == AbsorbAll(old(Snapshot()), segments, IdentifiedRoles(segments))
      ensures forall p | p in knownSpeakers.Values :: p in old(knownSpeakers.Values) || fresh(p)
      ensures isLoaded == old(isLoaded) && speakerSegments == old(speakerSegments) && audioBuffer == old(audioBuffer)
    {
      ghost var initial := Snapshot();
      ghost var objects := knownSpeakers.Values;
      var roles := IdentifySpeakerRoles(segments);
      for i := 0 to |segments|
        invariant Valid()
        invariant Snapshot() == AbsorbAll(initial, segments[..i], roles)
        invariant forall p | p in knownSpeakers.Values :: p in objects || fresh(p)
        invariant isLoaded == old(isLoaded) && speakerSegments == old(speakerSegments) && audioBuffer == old(audioBuffer)
      {
        AbsorbSegment(segments[i], RoleIn(roles, segments[i].speakerId), now);
        AbsorbAllStep(initial, segments, roles, i);
      }
      assert segments[..|segments|] == segments;
    }

    /** The role of a label: its profile's role, or unknown when it has no profile. */
    function KnownRole(id: string): Speaker
      reads this`knownSpeakers, knownSpeakers.Values
    {
      if id in knownSpeakers then knownSpeakers[id].speaker else Unknown
    }

    /** `get_speaker_for_segment`: the role behind the stored segment overlapping [start, end] the most. */
    method GetSpeakerForSegment(start: real, end: real) returns (r: Option<Speaker>)
      ensures r.None? <==> forall k :: 0 <= k < |speakerSegments| ==> !Overlaps(speakerSegments[k], start, end)
      ensures r.Some? ==> (BestOverlap(speakerSegments, start, end).Some?
        && r.value == KnownRole(speakerSegments[BestOverlap(speakerSegments, start, end).value].speakerId))
    {
      var segments := speakerSegments;
      var best: Option<nat> := None;
      for i := 0 to |segments|
        invariant best == BestOverlap(segments[..i], start, end)
      {
        BestOverlapStep(segments, i, start, end);
        var seg := segments[i];
        if Overlaps(seg, start, end) && (best.None? || OverlapLength(seg, start, end) > OverlapLength(segments[best.value], start, end)) {
          best := Some(i);
        }
      }
      assert segments[..|segments|] == segments;
      if best.None? {
        return None;
      }
      var id := segments[best.value].speakerId;
      if id in knownSpeakers {
        return Some(knownSpeakers[id].speaker);
      }
      return Some(Unknown);
    }

    /**
     * `process_real_time`: buffer the chunk, drop what is older than thirty seconds, and on
     * every tenth buffered chunk diarize the buffer, place the result at the oldest chunk's
     * time, record it and fold it into the profiles.
     */
    method ProcessRealTime(chunk: seq<real>, timestamp: real, rms: seq<real> -> real, call: PipelineCall, now: real)
      returns (segments: seq<SpeakerSegment>)
      requires Valid()
      modifies this, knownSpeakers.Values
      ensures Valid()
      ensures audioBuffer == Recent(old(audioBuffer) + [(chunk, timestamp)], timestamp - BufferDuration)
      ensures isLoaded == old(isLoaded)
      ensures !ProcessingTick(|audioBuffer|) ==>
        segments == [] && speakerSegments == old(speakerSegments) && Snapshot() == old(Snapshot())
      ensures ProcessingTick(|audioBuffer|) ==>
        segments == Shift(Diarized(isLoaded, BufferedAudio(audioBuffer), DefaultSampleRate, rms, call), audioBuffer[0].1)
        && speakerSegments == old(speakerSegments) + segments
        && Snapshot() == AbsorbAll(old(Snapshot()), segments, IdentifiedRoles(segments))
    {
      BufferChunk(chunk, timestamp);
      if |audioBuffer| < ChunksPerTick || |audioBuffer| % ChunksPerTick != 0 {
        return [];
      }
      assert ProcessingTick(|audioBuffer|);
      segments := DiarizeBuffer(rms, call, now);
    }

    /** The tick of `process_real_time`: diarize the buffer, record the segments, update the profiles. */
    method DiarizeBuffer(rms: seq<real> -> real, call: PipelineCall, now: real) returns (segments: seq<SpeakerSegment>)
      requires Valid() && audioBuffer != []
      modifies this, knownSpeakers.Values
      ensures Valid()
      ensures isLoaded == old(isLoaded) && audioBuffer == old(audioBuffer)
      ensures segments == Shift(Diarized(isLoaded, BufferedAudio(audioBuffer), DefaultSampleRate, rms, call), audioBuffer[0].1)
      ensures speakerSegments == old(speakerSegments) + segments
      ensures Snapshot() == AbsorbAll(old(Snapshot()), segments, IdentifiedRoles(segments))
    {
      var found := DiarizeAudio(BufferedAudio(audioBuffer), DefaultSampleRate, rms, call);
      segments := ShiftSegments(found, audioBuffer[0].1);
      RecordSegments(segments);
      CreateSpeakerProfiles(segments, now);
    }

    /** Append the chunk to the buffer and drop what is older than the buffer duration. */
    method BufferChunk(chunk: seq<real>, timestamp: real)
      requires Valid()
      modifies this`audioBuffer
      ensures Valid() && Snapshot() == old(Snapshot())
      ensures audioBuffer == Recent(old(audioBuffer) + [(chunk, timestamp)], timestamp - BufferDuration)
    {
      audioBuffer := Recent(audioBuffer + [(chunk, timestamp)], timestamp - BufferDuration);
    }

    /** `self.speaker_segments.extend(segments)`. */
    method RecordSegments(segments: seq<SpeakerSegment>)
      requires Valid()
      modifies this`speakerSegments
      ensures Valid() && Snapshot() == old(Snapshot())
      ensures speakerSegments == old(speakerSegments) + segments
    {
      speakerSegments := speakerSegments + segments;
    }
  }

  /** The profile object `create_speaker_profiles` makes for a label's first segment. */
  method NewProfile(role: Speaker, d: real, now: real) returns (p: SpeakerProfile)
    ensures fresh(p) && Keyed(p) && p.Valid() && View(p) == NewProfileView(role, d)
  {
    p := new SpeakerProfile(role, map[TotalDuration := d], map[AverageSegmentLength := d, SegmentsCount := 1.0], now);
  }

  /** The running-mean update of one known profile, then `update_profile`. */
  method FoldInto(p: SpeakerProfile, d: real, now: real)
    requires Keyed(p) && p.Valid()
    modifies p
    ensures Keyed(p) && p.Valid()
    ensures View(p) == UpdatedView(old(View(p)), d)
  {
    var c := p.speakingPatterns[SegmentsCount];
    var avg := p.speakingPatterns[AverageSegmentLength];
    p.voiceCharacteristics := p.voiceCharacteristics[TotalDuration := p.voiceCharacteristics[TotalDuration] + d];
    p.speakingPatterns := p.speakingPatterns[AverageSegmentLength := RunningMean(avg, c, d)][SegmentsCount := c + 1.0];
    p.UpdateProfile(now);
  }

  /** The `segment.start_time += base_time; segment.end_time += base_time` loop. */
  method ShiftSegments(segments: seq<SpeakerSegment>, base: real) returns (r: seq<SpeakerSegment>)
    ensures r == Shift(segments, base)
  {
    r := [];
    for i := 0 to |segments|
      invariant r == Shift(segments[..i], base)
    {
      r := r + [segments[i].(startTime := segments[i].startTime + base, endTime := segments[i].endTime + base)];
    }
    assert segments[..|segments|] == segments;
  }
}
