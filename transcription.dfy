/**
 * The transcription stage: the transcriber's bounded work queue, one step of
 * its worker (the short-audio filter, the engine call, the blank-text
 * filter), and the pipeline that looks up speakers by overlap, queues voice
 * segments and turns transcripts into conversation turns.
 *
 * The speech engine is an outcome parameter (the text it produced and its
 * confidence, or an exception); the time a call took is an `elapsed`
 * parameter.
 */
module Transcription {
  import opened Common
  import opened Conversation
  import Text
  import Vad
  import Diarization

  /** The queue holds at most this many items (`queue.Queue(maxsize=100)`). */
  const MaxQueue: nat := 100
  /** Audio shorter than half a second at 16 kHz is skipped. */
  const MinSamples: nat := 8000

  /**
   * What the engine call (`_transcribe_whisper_cpp` or `_transcribe_whisper`) produced: the text
   * and confidence it returned, or an exception.
   */
  datatype EngineCall = Transcribed(text: string, confidence: real) | EngineRaised

  datatype TranscriptionResult = TranscriptionResult(text: string, confidence: real, processingTime: real)

  /** A queued request: the audio, when it was recorded and the speaker if known. */
  datatype QueueItem = QueueItem(audio: seq<real>, timestamp: real, speaker: Option<Speaker>)

  /** A result handed to the callback, with the queued timestamp and speaker attached. */
  datatype Transcript = Transcript(result: TranscriptionResult, timestamp: real, speaker: Option<Speaker>)

  /** `transcribe_audio`: empty text and no confidence unless the model is loaded and the engine succeeds. */
  function Transcription(isLoaded: bool, engine: EngineCall, elapsed: real): (r: TranscriptionResult)
    ensures !isLoaded ==> r == TranscriptionResult("", 0.0, 0.0)
    ensures isLoaded ==> r.processingTime == elapsed
    ensures r.text != [] ==> isLoaded && engine.Transcribed? && r.confidence == engine.confidence
    ensures isLoaded && engine.Transcribed? ==> r.text == engine.text
  {
    if !isLoaded then TranscriptionResult("", 0.0, 0.0)
    else match engine
      case Transcribed(text, confidence) => TranscriptionResult(text, confidence, elapsed)
      case EngineRaised => TranscriptionResult("", 0.0, elapsed)
  }

  /** One worker step on a dequeued item: what, if anything, reaches the result callback. */
  function WorkerOutcome(isLoaded: bool, item: QueueItem, engine: EngineCall, elapsed: real): (r: Option<Transcript>)
    ensures r.None? <==> |item.audio| < MinSamples || !isLoaded || engine.EngineRaised? || Text.IsBlank(engine.text)
    ensures r.Some? ==> r.value.timestamp == item.timestamp && r.value.speaker == item.speaker
    ensures r.Some? ==> r.value.result.text == engine.text && r.value.result.confidence == engine.confidence
    ensures r.Some? ==> !Text.IsBlank(r.value.result.text)
  {
    if |item.audio| < MinSamples then None
    else
      var result := Transcription(isLoaded, engine, elapsed);
      if result.text != [] && Text.Strip(result.text) != [] then
        Some(Transcript(result, item.timestamp, item.speaker))
      else None
  }

  /** `put_nowait`: the queue grows by the item unless it already holds the maximum. */
  function Enqueue(queue: seq<QueueItem>, item: QueueItem): (r: seq<QueueItem>)
    ensures |queue| < MaxQueue ==> r == queue + [item]
    ensures |queue| >= MaxQueue ==> r == queue
  {
    if |queue| < MaxQueue then queue + [item] else queue
  }

  /**
   * `_find_speaker_for_segment`: None when no speaker segment overlaps [start, end]
   * (touching ends count); otherwise the role is always unknown, the best overlap
   * being computed and then not used.
   */
  function FindSpeakerForSegment(start: real, end: real, speakerSegments: seq<Diarization.SpeakerSegment>): (r: Option<Speaker>)
    ensures r.None? <==> forall k :: 0 <= k < |speakerSegments| ==> !Diarization.Overlaps(speakerSegments[k], start, end)
    ensures r.Some? ==> r.value == Unknown
  {
    match Diarization.BestOverlap(speakerSegments, start, end)
    case None => None
    case Some(_) => Some(Unknown)
  }

  /** The request queued for a voice segment that carries audio. */
  function ItemFor(v: Vad.VoiceSegment, speakerSegments: seq<Diarization.SpeakerSegment>): QueueItem
    requires v.audio.Some?
  {
    QueueItem(v.audio.value, v.startTime, FindSpeakerForSegment(v.startTime, v.endTime, speakerSegments))
  }

  /** The requests for the voice segments that carry audio, in input order. */
  function ItemsFor(voiceSegments: seq<Vad.VoiceSegment>, speakerSegments: seq<Diarization.SpeakerSegment>): seq<QueueItem>
  {
    if voiceSegments == [] then []
    else
      var last := voiceSegments[|voiceSegments| - 1];
      ItemsFor(voiceSegments[..|voiceSegments| - 1], speakerSegments) + (if last.audio.Some? then [ItemFor(last, speakerSegments)] else [])
  }

  /** `process_voice_segments`: each segment with audio is offered to the queue in turn. */
  function QueueAll(queue: seq<QueueItem>, voiceSegments: seq<Vad.VoiceSegment>, speakerSegments: seq<Diarization.SpeakerSegment>): seq<QueueItem>
  {
    if voiceSegments == [] then queue
    else
      var last := voiceSegments[|voiceSegments| - 1];
      var q := QueueAll(queue, voiceSegments[..|voiceSegments| - 1], speakerSegments);
      if last.audio.Some? then Enqueue(q, ItemFor(last, speakerSegments)) else q
  }

  /** Queueing keeps what was queued before and never passes the maximum. */
  lemma {:induction false} QueueAllBounded(queue: seq<QueueItem>, voiceSegments: seq<Vad.VoiceSegment>, speakerSegments: seq<Diarization.SpeakerSegment>)
    requires |queue| <= MaxQueue
    ensures var r := QueueAll(queue, voiceSegments, speakerSegments);
      |queue| <= |r| <= MaxQueue && r[..|queue|] == queue
  {
    if voiceSegments != [] {
      var q := QueueAll(queue, voiceSegments[..|voiceSegments| - 1], speakerSegments);
      QueueAllBounded(queue, voiceSegments[..|voiceSegments| - 1], speakerSegments);
      if |q| < MaxQueue && voiceSegments[|voiceSegments| - 1].audio.Some? {
        var item := ItemFor(voiceSegments[|voiceSegments| - 1], speakerSegments);
        assert (q + [item])[..|queue|] == q[..|queue|];
      }
    }
  }

  /** With room for all of them, every segment with audio is queued, in input order, and nothing else. */
  lemma {:induction false} QueueAllWithRoom(queue: seq<QueueItem>, voiceSegments: seq<Vad.VoiceSegment>, speakerSegments: seq<Diarization.SpeakerSegment>)
    requires |queue| + |ItemsFor(voiceSegments, speakerSegments)| <= MaxQueue
    ensures QueueAll(queue, voiceSegments, speakerSegments) == queue + ItemsFor(voiceSegments, speakerSegments)
  {
    if voiceSegments != [] {
      var init := voiceSegments[..|voiceSegments| - 1];
      QueueAllWithRoom(queue, init, speakerSegments);
      var last := voiceSegments[|voiceSegments| - 1];
      if last.audio.Some? {
        assert queue + ItemsFor(voiceSegments, speakerSegments) == (queue + ItemsFor(init, speakerSegments)) + [ItemFor(last, speakerSegments)];
      }
    }
  }

  /** Every queued request comes from a segment with audio and carries that segment's start time. */
  lemma {:induction false} ItemsFromAudio(voiceSegments: seq<Vad.VoiceSegment>, speakerSegments: seq<Diarization.SpeakerSegment>)
    ensures |ItemsFor(voiceSegments, speakerSegments)| <= |voiceSegments|
    ensures forall item | item in ItemsFor(voiceSegments, speakerSegments) ::
      exists k :: 0 <= k < |voiceSegments| && voiceSegments[k].audio == Some(item.audio) && voiceSegments[k].startTime == item.timestamp
  {
    if voiceSegments != [] {
      var init := voiceSegments[..|voiceSegments| - 1];
      ItemsFromAudio(init, speakerSegments);
      forall item | item in ItemsFor(voiceSegments, speakerSegments)
        ensures exists k :: 0 <= k < |voiceSegments| && voiceSegments[k].audio == Some(item.audio) && voiceSegments[k].startTime == item.timestamp
      {
        if item in ItemsFor(init, speakerSegments) {
          var k :| 0 <= k < |init| && init[k].audio == Some(item.audio) && init[k].startTime == item.timestamp;
          assert voiceSegments[k] == init[k];
        } else {
          assert voiceSegments[|voiceSegments| - 1].audio == Some(item.audio);
        }
      }
    }
  }

  /** `_handle_transcription_result`: the turn made from a transcript, if any. */
  function TurnFor(t: Transcript): (r: Option<Turn>)
    ensures r.Some? <==> !Text.IsBlank(t.result.text) && UnitInterval(t.result.confidence)
    ensures r.Some? ==> r.value.text == Text.Strip(t.result.text) && r.value.text != []
    ensures r.Some? ==> r.value.speaker == (if t.speaker.Some? then t.speaker.value else Unknown)
    ensures r.Some? ==> r.value.timestamp == t.timestamp && r.value.confidence == t.result.confidence && r.value.duration.None?
  {
    if t.result.text == [] || Text.Strip(t.result.text) == [] then None
    else
      var speaker := if t.speaker.Some? then t.speaker.value else Unknown;
      match MakeTurn(speaker, Text.Strip(t.result.text), t.timestamp, t.result.confidence, None)
      case Ok(turn) => Some(turn)
      case Raised(_) => None
  }

  /** A delivered transcript with a valid confidence always becomes a turn carrying the engine's text, stripped once and for all. */
  lemma DeliveredBecomesTurn(isLoaded: bool, item: QueueItem, engine: EngineCall, elapsed: real)
    requires engine.Transcribed? && UnitInterval(engine.confidence)
    requires WorkerOutcome(isLoaded, item, engine, elapsed).Some?
    ensures var t := WorkerOutcome(isLoaded, item, engine, elapsed).value;
      TurnFor(t).Some? && TurnFor(t).value.text == Text.Strip(engine.text) && TurnFor(t).value.timestamp == item.timestamp
      && Text.Strip(TurnFor(t).value.text) == TurnFor(t).value.text
  {
    Text.StripIdempotent(engine.text);
  }

  class WhisperTranscriber {
    var isLoaded: bool
    var queue: seq<QueueItem>
    var isRunning: bool
    var totalTranscriptions: nat
    var totalProcessingTime: real

    ghost predicate Valid()
      reads this
    {
      |queue| <= MaxQueue
    }

    /** A transcriber whose model did or did not load. */
    constructor (loaded: bool)
      ensures Valid()
      ensures isLoaded == loaded && queue == [] && !isRunning && totalTranscriptions == 0 && totalProcessingTime == 0.0
    {
      isLoaded := loaded;
      queue := [];
      isRunning := false;
      totalTranscriptions := 0;
      totalProcessingTime := 0.0;
    }

    /** `transcribe_audio`: only a successful engine call is counted. */
    method TranscribeAudio(audio: seq<real>, engine: EngineCall, elapsed: real) returns (r: TranscriptionResult)
      modifies this
      ensures r == Transcription(isLoaded, engine, elapsed)
      ensures isLoaded && engine.Transcribed? ==>
        totalTranscriptions == old(totalTranscriptions) + 1 && totalProcessingTime == old(totalProcessingTime) + elapsed
      ensures !(isLoaded && engine.Transcribed?) ==>
        totalTranscriptions == old(totalTranscriptions) && totalProcessingTime == old(totalProcessingTime)
      ensures isLoaded == old(isLoaded) && queue == old(queue) && isRunning == old(isRunning)
    {
      r := Transcription(isLoaded, engine, elapsed);
      if isLoaded && engine.Transcribed? {
        totalTranscriptions := totalTranscriptions + 1;
        totalProcessingTime := totalProcessingTime + elapsed;
      }
    }

    /** `queue_audio_for_transcription`: true and queued when there is room, false and unchanged when full. */
    method QueueAudio(audio: seq<real>, timestamp: real, speaker: Option<Speaker>) returns (ok: bool)
      requires Valid()
      modifies this
      ensures Valid()
      ensures ok <==> |old(queue)| < MaxQueue
      ensures queue == Enqueue(old(queue), QueueItem(audio, timestamp, speaker))
      ensures isLoaded == old(isLoaded) && isRunning == old(isRunning)
      ensures totalTranscriptions == old(totalTranscriptions) && totalProcessingTime == old(totalProcessingTime)
    {
      if |queue| < MaxQueue {
        queue := queue + [QueueItem(audio, timestamp, speaker)];
        ok := true;
      } else {
        ok := false;
      }
    }

    /**
     * One pass of `_transcription_worker`: take the oldest request, skip it when its audio is
     * short, otherwise transcribe it and hand a non-blank result to the callback.
     */
    method WorkerStep(engine: EngineCall, elapsed: real) returns (delivered: Option<Transcript>)
      requires Valid()
      modifies this
      ensures Valid()
      ensures old(queue) == [] ==> delivered.None? && queue == []
      ensures old(queue) != [] ==> queue == old(queue)[1..] && delivered == WorkerOutcome(isLoaded, old(queue)[0], engine, elapsed)
      ensures old(queue) == [] || |old(queue)[0].audio| < MinSamples ==>
        totalTranscriptions == old(totalTranscriptions) && totalProcessingTime == old(totalProcessingTime)
      ensures old(queue) != [] && |old(queue)[0].audio| >= MinSamples && isLoaded && engine.Transcribed? ==>
        totalTranscriptions == old(totalTranscriptions) + 1 && totalProcessingTime == old(totalProcessingTime) + elapsed
      ensures old(queue) != [] && |old(queue)[0].audio| >= MinSamples && !(isLoaded && engine.Transcribed?) ==>
        totalTranscriptions == old(totalTranscriptions) && totalProcessingTime == old(totalProcessingTime)
      ensures isLoaded == old(isLoaded) && isRunning == old(isRunning)
    {
      if queue == [] {
        return None;
      }
      var item := queue[0];
      queue := queue[1..];
      if |item.audio| < MinSamples {
        return None;
      }
      var result := TranscribeAudio(item.audio, engine, elapsed);
      if result.text != [] && Text.Strip(result.text) != [] {
        delivered := Some(Transcript(result, item.timestamp, item.speaker));
      } else {
        delivered := None;
      }
    }

    /** `start_real_time_processing`: a second start changes nothing. */
    method Start()
      modifies this
      ensures isRunning
      ensures isLoaded == old(isLoaded) && queue == old(queue)
      ensures totalTranscriptions == old(totalTranscriptions) && totalProcessingTime == old(totalProcessingTime)
    {
      if !isRunning {
        isRunning := true;
      }
    }

    /** `stop_real_time_processing`. */
    method Stop()
      modifies this
      ensures !isRunning
      ensures isLoaded == old(isLoaded) && queue == old(queue)
      ensures totalTranscriptions == old(totalTranscriptions) && totalProcessingTime == old(totalProcessingTime)
    {
      if isRunning {
        isRunning := false;
      }
    }
  }

  class TranscriptionPipeline {
    const transcriber: WhisperTranscriber
    var conversationTurns: seq<Turn>

    ghost predicate Valid()
      reads this, transcriber
    {
      transcriber.Valid()
    }

    constructor (transcriber: WhisperTranscriber)
      requires transcriber.Valid()
      ensures Valid() && this.transcriber == transcriber && conversationTurns == []
    {
      this.transcriber := transcriber;
      conversationTurns := [];
    }

    /** `process_voice_segments`: queue each segment that carries audio, with the speaker found by overlap. */
    method ProcessVoiceSegments(voiceSegments: seq<Vad.VoiceSegment>, speakerSegments: seq<Diarization.SpeakerSegment>)
      requires Valid()
      modifies transcriber
      ensures Valid()
      ensures transcriber.queue == QueueAll(old(transcriber.queue), voiceSegments, speakerSegments)
      ensures transcriber.isLoaded == old(transcriber.isLoaded) && transcriber.isRunning == old(transcriber.isRunning)
      ensures transcriber.totalTranscriptions == old(transcriber.totalTranscriptions)
      ensures transcriber.totalProcessingTime == old(transcriber.totalProcessingTime)
    {
      for i := 0 to |voiceSegments|
        invariant Valid()
        invariant transcriber.queue == QueueAll(old(transcriber.queue), voiceSegments[..i], speakerSegments)
        invariant transcriber.isLoaded == old(transcriber.isLoaded) && transcriber.isRunning == old(transcriber.isRunning)
        invariant transcriber.totalTranscriptions == old(transcriber.totalTranscriptions)
        invariant transcriber.totalProcessingTime == old(transcriber.totalProcessingTime)
      {
        assert voiceSegments[..i + 1][..i] == voiceSegments[..i];
        var v := voiceSegments[i];
        if v.audio.Some? {
          var speaker := FindSpeakerForSegment(v.startTime, v.endTime, speakerSegments);
          var _ := transcriber.QueueAudio(v.audio.value, v.startTime, speaker);
        }
      }
      assert voiceSegments[..|voiceSegments|] == voiceSegments;
    }

    /** `_handle_transcription_result`: a non-blank transcript becomes one more turn, which is returned for the turn callback. */
    method HandleTranscriptionResult(t: Transcript) returns (turn: Option<Turn>)
      modifies this
      ensures turn == TurnFor(t)
      ensures turn.None? ==> conversationTurns == old(conversationTurns)
      ensures turn.Some? ==> conversationTurns == old(conversationTurns) + [turn.value]
    {
      if t.result.text == [] || Text.Strip(t.result.text) == [] {
        return None;
      }
      var speaker := if t.speaker.Some? then t.speaker.value else Unknown;
      var made := MakeTurn(speaker, Text.Strip(t.result.text), t.timestamp, t.result.confidence, None);
      if made.Raised? {
        return None;
      }
      conversationTurns := conversationTurns + [made.value];
      turn := Some(made.value);
    }

    /** `get_recent_turns(count)`: the last `count` turns, or all of them when there are fewer or `count` is zero. */
    function RecentTurns(count: int): (r: seq<Turn>)
      reads this
      ensures |r| <= |conversationTurns| && r == conversationTurns[|conversationTurns| - |r|..]
      ensures 0 < count <= |conversationTurns| ==> |r| == count
      ensures count == 0 || count > |conversationTurns| ==> r == conversationTurns
    {
      RecentItems(conversationTurns, count)
    }

    /** `clear_history`. */
    method ClearHistory()
      modifies this
      ensures conversationTurns == []
    {
      conversationTurns := [];
    }
  }
}
