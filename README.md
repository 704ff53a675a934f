# Stealth sales coach: a verified model of its pipeline logic

This project models the deterministic core of the stealth sales coach in Dafny. The coach listens to a sales call and gives the sales rep live advice. Audio moves through five stages:

1. voice activity detection cuts it into voice segments;
2. speaker diarization attributes stretches of time to speakers and ranks them into the sales rep and the customer;
3. transcription turns segments into conversation turns;
4. a language-model coach decides when to analyse the conversation and reads the model's JSON reply into a coaching response;
5. an orchestrator wires the components together, keeps bounded recent lists and counters, starts and stops everything in order, and formats the session clock.

Around this pipeline sit:

- the validated configuration, with its environment overrides;
- three stand-alone drivers, each with a fallback rule engine: the final integrated coach (a three-strike breaker in front of the model), the stable coach (an error counter that restarts the coaching system) and the ultra-stable coach (a keyword table);
- the rule engine of the integration test, with its scripted three-sentence scenario.

Engines are never run in the model. Each becomes an input: an outcome datatype or a function parameter.

- **Inputs standing in for engines:** the Silero voice model, Whisper, pyannote, the llama model, `json.loads` and `float()`.
- **Inputs standing in for the environment:** RMS energies, the clock (`now`) and the sound hardware.
- **Loops:** each worker thread is modelled as one step of its loop.

## Layout

One Dafny module per source file, plus two shared modules:

- `common.dfy` holds Option/Result, the unit interval and the last-n window.
- `text.dfy` holds the Python string operations the rules rely on: `strip`, ASCII `lower`, `in`, `find`, `rfind` and `len(split())`.

| module | models |
|---|---|
| `Vad` | sales_coach/src/audio/vad.py |
| `Capture` | sales_coach/src/audio/capture.py |
| `Conversation` | sales_coach/src/models/conversation.py |
| `Transcription` | sales_coach/src/audio/transcription.py |
| `Diarization` | sales_coach/src/audio/diarization.py |
| `Coaching` | sales_coach/src/llm/coaching.py |
| `Orchestrator` | sales_coach/coach.py |
| `Config` | sales_coach/src/models/config.py |
| `FinalCoach` | final_integrated_coach.py |
| `StableCoach` | stable_coach.py |
| `UltraStable` | ultra_stable_coach.py |
| `IntegrationScript` | tests/test_integration.py |

Code that changes objects in place becomes Dafny classes with `modifies` clauses: the segmenter, the buffers, the queues, the diarizer with its profile objects, the coach objects and the orchestrator. Most methods are proved against a specification function, and the lemmas below are proved about those functions; the orchestrator's methods (`Orchestrator.SalesCoach`) are specified directly over its fields and the component calls they record. Rule tables, validators and parsers are functions.

## Model

| member | source | states |
|---|---|---|
| Vad.EnergyBasedVad | sales_coach/src/audio/vad.py:126-137 | voice exactly when the energy exceeds max(threshold, 0.05); confidence is min(1, rms / (2·that)), so it lies in [0, 1], is above 0.5 exactly for voice and reaches 1 exactly at twice the threshold |
| Vad.DetectVoiceActivity | sales_coach/src/audio/vad.py:77-124 | energy below the 0.0005 noise gate is (false, 0.0); otherwise an unloaded or raising model falls back to the energy rule, and a loaded model's probability p gives (p > threshold, p) |
| Vad.FallbackVoicedIff | sales_coach/src/audio/vad.py:83-91 | without the model the gate is subsumed: voice iff energy > max(threshold, 0.05), with confidence in [0, 1] |
| Vad.Step | sales_coach/src/audio/vad.py:139-184 | voice opens a segment (start = timestamp, buffer = [chunk]) or extends it; silence closes an open segment and emits it only when longer than 0.5 s; at most one segment per chunk; speaking always has a non-empty buffer |
| Vad.RunChronological | sales_coach/src/audio/vad.py:139-184 | over chunks with strictly increasing timestamps, the emitted segments are in order and never overlap |
| Vad.RunSegmentsLongEnough | sales_coach/src/audio/vad.py:171-175 | every emitted segment lasts more than 0.5 s and a stream emits at most one segment per chunk |
| Vad.EndingSince | sales_coach/src/audio/vad.py:193-197 | the filter keeps exactly the segments ending at or after the cutoff, in their original order |
| Vad.EndingSinceConcat | sales_coach/src/audio/vad.py:193-197 | filtering a concatenation is the concatenation of the filtered parts, so the relative order of the kept segments is the recorded order |
| Vad.EndingSinceSingle | sales_coach/src/audio/vad.py:193-197 | one segment is kept exactly when it ends at or after the cutoff |
| Vad.EndingSinceCompose | sales_coach/src/audio/vad.py:186-211 | pruning with `cleanup_old_segments` and then querying `get_recent_segments` with a newer cutoff equals the query alone |
| Vad.TotalDurationLowerBound | sales_coach/src/audio/vad.py:220-221 | the total speech time of n recorded segments exceeds 0.5·n seconds |
| Vad.SileroVad.constructor | sales_coach/src/audio/vad.py:34-49 | not loaded, not speaking, empty buffer and no recorded segment |
| Vad.SileroVad.ProcessAudioStream | sales_coach/src/audio/vad.py:139-184 | the new segmenter state and the returned segments are those of `Step` on the detector's decision; the recorded segments grow by exactly the returned ones; every recorded segment stays longer than 0.5 s |
| Vad.SileroVad.RecentSegments | sales_coach/src/audio/vad.py:186-197 | the result is the recorded segments ending at or after now − duration, in recording order (`EndingSince`); a segment is returned iff it is recorded and ends within `duration` seconds of now |
| Vad.SileroVad.CleanupOldSegments | sales_coach/src/audio/vad.py:199-211 | the recorded segments become `EndingSince` of the old ones at now − keep_duration: exactly those ending at or after it, in recording order |
| Vad.SileroVad.Stats | sales_coach/src/audio/vad.py:213-236 | counts the recorded segments; no recent count when none is recorded; an average above 0.5 s otherwise; speech ratio in [0, 1]; the recent count is that of the 300-second window |
| Vad.StatsFacts | sales_coach/src/audio/vad.py:220-234 | the average of segments longer than 0.5 s is longer than 0.5 s, and recent speech time is never negative |
| Vad.AdaptiveVad.constructor | sales_coach/src/audio/vad.py:243-254 | a fresh base detector with the configured threshold; noise floor 0.001, no noise samples, not adapting |
| Vad.AdaptiveVad.DetectVoiceActivity | sales_coach/src/audio/vad.py:291-305 | returns the base detector's decision; a non-voice chunk's energy is appended and the samples are cut to the last 1000 |
| Vad.AdaptiveVad.AdaptationStep | sales_coach/src/audio/vad.py:271-289 | with more than 100 samples the noise floor becomes the 20th percentile of the last 100 and the threshold max(configured, 3·floor); otherwise nothing changes |
| Vad.AdaptiveVad.ProcessAudioStream | sales_coach/src/audio/vad.py:307-309 | delegates to the base segmenter, which calls the base detector, so the noise samples and floor are left untouched |
| Capture.FirstMatching | sales_coach/src/audio/capture.py:63-69 | the result is the first device in list order whose lowercased name contains the lowercased pattern; None iff no device matches |
| Capture.InputDevices | sales_coach/src/audio/capture.py:55-57 | a device is kept iff it is listed and is an input; the first kept device is the first input in list order |
| Capture.InputDevicesConcat | sales_coach/src/audio/capture.py:55-57 | the input devices of a concatenated list are those of each part, in order, so the filter keeps list order |
| Capture.InputDevicesSingle | sales_coach/src/audio/capture.py:55-57 | one device is kept exactly when it is an input |
| Capture.FirstPreferred | sales_coach/src/audio/capture.py:85-99 | a chosen device is a listed input device; None iff no pattern's first match is an input device |
| Capture.FirstPreferredIsFirstMatch | sales_coach/src/audio/capture.py:94-98 | the chosen device is the first match of the earliest pattern whose first match is an input device |
| Capture.DefaultInput | sales_coach/src/audio/capture.py:71-83 | a listed input device; None iff there is no input device; the first input named like the system default when there is a default name and such a device, otherwise the first input device in list order |
| Capture.FirstNamedInput | sales_coach/src/audio/capture.py:74-77 | the first device in list order that is an input and whose name equals the system's default name; None iff no device is |
| Capture.BestCaptureDevice | sales_coach/src/audio/capture.py:85-106 | the preferred virtual device (`FirstPreferred`) when there is one, otherwise `DefaultInput`; always a listed input device, and None only when no device is an input |
| Capture.AudioDeviceManager.constructor | sales_coach/src/audio/capture.py:33-53 | holds the queried device list |
| Capture.AudioDeviceManager.FindDevice | sales_coach/src/audio/capture.py:63-69 | the loop returns `FirstMatching` of the device list |
| Capture.AudioDeviceManager.FindPreferred | sales_coach/src/audio/capture.py:94-98 | the loop over "aggregate", "blackhole", "soundflower", "multi-output" returns `FirstPreferred` |
| Capture.AudioDeviceManager.GetDefaultInputDevice | sales_coach/src/audio/capture.py:71-83 | the loop returns `DefaultInput`: the first input named like the system default, else the first input device, None iff there is no input |
| Capture.AudioDeviceManager.GetBestCaptureDevice | sales_coach/src/audio/capture.py:85-106 | returns `BestCaptureDevice`: the preferred virtual device when there is one, else the default input |
| Capture.AudioBuffer.constructor | sales_coach/src/audio/capture.py:112-115 | empty, no dropped chunk |
| Capture.AudioBuffer.Put | sales_coach/src/audio/capture.py:117-125 | succeeds iff the queue was not full; success appends the chunk; failure keeps the contents and counts one dropped chunk |
| Capture.AudioBuffer.Get | sales_coach/src/audio/capture.py:127-132 | the oldest chunk and the rest remain, or None on an empty buffer |
| Capture.AudioBuffer.Size | sales_coach/src/audio/capture.py:134-136 | never above a positive maximum; zero iff empty |
| Capture.AudioBuffer.Clear | sales_coach/src/audio/capture.py:138-145 | empties the buffer and keeps the drop counter |
| Capture.AudioCaptureSystem.constructor | sales_coach/src/audio/capture.py:151-173 | an empty buffer of the configured size, not capturing, no device, zeroed statistics |
| Capture.AudioCaptureSystem.SelectCaptureDevice | sales_coach/src/audio/capture.py:179-200 | the configured device's first match when that is an input, otherwise exactly `BestCaptureDevice` of the device list; always a listed input; None iff there is none |
| Capture.AudioCaptureSystem.StreamCallback | sales_coach/src/audio/capture.py:202-213 | offers the chunk to the buffer and counts it even when it is dropped |
| Capture.AudioCaptureSystem.ProcessStep | sales_coach/src/audio/capture.py:215-235 | takes the oldest chunk, if any, and adds its length / sample rate to the total duration |
| Capture.AudioCaptureSystem.StartCapture | sales_coach/src/audio/capture.py:237-274 | already capturing: true, no change; otherwise the recorded device is the one `_select_capture_device` picks (the configured input when it matches, else BestCaptureDevice), a listed input absent only when there is none; success iff a device was selected and the stream starts, and then the stream is open; buffer, drop counter, chunk count, duration and last chunk time are unchanged |
| Capture.AudioCaptureSystem.StopCapture | sales_coach/src/audio/capture.py:276-304 | nothing when idle; otherwise not capturing, no stream, no device and an empty buffer |
| Conversation.StageOf | sales_coach/src/models/conversation.py:16-23 | a returned stage is written exactly as the given value; None iff no stage is written that way |
| Conversation.CategoryOf | sales_coach/src/models/conversation.py:26-33 | a returned category is written exactly as the given value; None iff no category is |
| Conversation.PriorityOf | sales_coach/src/models/conversation.py:36-40 | a returned priority is written exactly as the given value; None iff no priority is |
| Conversation.EnumNamesRoundTrip | sales_coach/src/models/conversation.py:16-40 | every stage, category and priority reads back from its value as itself |
| Conversation.MakeTurn | sales_coach/src/models/conversation.py:43-50 | a turn is built iff its confidence lies in [0, 1], and then holds exactly the given fields |
| Conversation.MakeResponse | sales_coach/src/models/conversation.py:101-120 | a response is built iff its confidence lies in [0, 1], with no secondary advice |
| Conversation.TotalIsSumOfSpeakers | sales_coach/src/models/conversation.py:161-172 | the total talk time splits exactly into the three speakers' shares |
| Conversation.TalkTimeNonNegative | sales_coach/src/models/conversation.py:161-172 | with no negative duration, a speaker's talk time is never negative |
| Conversation.TotalCoversBothParties | sales_coach/src/models/conversation.py:161-172 | the total is at least the representative's and the customer's time together |
| Conversation.TalkAppend | sales_coach/src/models/conversation.py:161-172 | appending a turn adds its duration to its own speaker's share and to the total, and to nobody else's |
| Conversation.RecentItems | sales_coach/src/models/conversation.py:174-176 | a suffix of the list: `count` items when 0 < count ≤ length, the whole list when count is 0 or exceeds the length, and Python's `[-count:]` for a negative count |
| Conversation.ConversationState.constructor | sales_coach/src/models/conversation.py:123-159 | no turns, no coaching, stage DISCOVERY, two participants, zero totals |
| Conversation.ConversationState.AddTurn | sales_coach/src/models/conversation.py:161-172 | appends the turn; an absent or zero duration moves no total; otherwise it adds to the total and to the representative's or customer's time only |
| Conversation.ConversationState.RecentTurns | sales_coach/src/models/conversation.py:174-176 | a suffix of the turns, of length `count` when 0 < count ≤ length, and all turns when count is 0 or too large |
| Conversation.ConversationState.TalkRatio | sales_coach/src/models/conversation.py:178-182 | infinite iff the customer's time is 0 and the representative's positive; otherwise ratio × customer time = representative time, and 0 when both are 0 |
| Conversation.ConversationState.AddCoaching | sales_coach/src/models/conversation.py:184-190 | the history becomes the last 20 of the old history plus the response, which is its newest entry; nothing else changes |
| Conversation.LastNAppend | sales_coach/src/models/conversation.py:186-190 | keeping the last n after an append equals the last n − 1 of the old list followed by the new item |
| Conversation.ProfileConfidence | sales_coach/src/models/conversation.py:225-227 | in [0, 0.95]; exactly 0.95 from the tenth sample on; a tenth per sample before |
| Conversation.SpeakerProfile.constructor | sales_coach/src/models/conversation.py:193-216 | confidence 0 and no sample analysed |
| Conversation.SpeakerProfile.UpdateProfile | sales_coach/src/models/conversation.py:218-227 | one more sample, confidence `ProfileConfidence` of the new count, time stamped now; the dictionaries are unchanged |
| Transcription.Transcription | sales_coach/src/audio/transcription.py:140-182 | an unloaded model gives ("", 0.0, 0.0); a loaded one records the elapsed time; non-empty text only comes from a loaded model whose engine call succeeded, with that call's confidence |
| Transcription.WorkerOutcome | sales_coach/src/audio/transcription.py:287-324 | nothing reaches the callback exactly when the audio is under 8000 samples, the model is not loaded, the engine raised or its text is blank; otherwise the engine's text and confidence arrive with the queued timestamp and speaker |
| Transcription.Enqueue | sales_coach/src/audio/transcription.py:272-285 | the item is appended while the queue holds fewer than 100 items; a full queue is left as it was |
| Transcription.FindSpeakerForSegment | sales_coach/src/audio/transcription.py:382-403 | None exactly when no speaker segment overlaps [start, end] (touching ends count); otherwise always the unknown role |
| Transcription.QueueAllBounded | sales_coach/src/audio/transcription.py:361-380 | queueing voice segments keeps what was already queued as a prefix and never exceeds 100 items |
| Transcription.QueueAllWithRoom | sales_coach/src/audio/transcription.py:361-380 | with room for all of them, exactly the segments carrying audio are queued, in input order |
| Transcription.ItemsFromAudio | sales_coach/src/audio/transcription.py:361-380 | every queued request comes from a segment with audio and carries its start time; there are no more requests than segments |
| Transcription.TurnFor | sales_coach/src/audio/transcription.py:405-426 | a turn is made exactly when the text is not blank and the confidence lies in [0, 1]; it carries the stripped text, the transcript's speaker or unknown, its timestamp and confidence |
| Transcription.DeliveredBecomesTurn | sales_coach/src/audio/transcription.py:287-324 | a transcript the worker delivers, with a valid confidence, always becomes a turn whose text is the engine's text stripped |
| Transcription.WhisperTranscriber.constructor | sales_coach/src/audio/transcription.py:50-68 | a transcriber whose model did or did not load (load_model is an input): empty queue, not running, zero statistics |
| Transcription.WhisperTranscriber.TranscribeAudio | sales_coach/src/audio/transcription.py:140-182 | returns Transcription(...); the statistics count only loaded, successful engine calls and add their elapsed time; nothing else changes |
| Transcription.WhisperTranscriber.QueueAudio | sales_coach/src/audio/transcription.py:272-285 | true exactly when the queue had room; the queue becomes Enqueue(old queue, item); the queue never exceeds 100 |
| Transcription.WhisperTranscriber.WorkerStep | sales_coach/src/audio/transcription.py:287-324 | an empty queue yields nothing; otherwise the oldest item is removed and WorkerOutcome of it is delivered; an empty queue or skipped short audio leaves both counters unchanged; for audio of at least 8000 samples the transcription count rises by one and the processing time by `elapsed` exactly when the model is loaded and the engine call succeeded, and neither changes otherwise |
| Transcription.WhisperTranscriber.Start | sales_coach/src/audio/transcription.py:247-258 | the worker is running afterwards, whether or not it was before; queue and statistics are unchanged |
| Transcription.WhisperTranscriber.Stop | sales_coach/src/audio/transcription.py:260-270 | the worker is stopped; queue and statistics are unchanged |
| Transcription.TranscriptionPipeline.constructor | sales_coach/src/audio/transcription.py:347-355 | the pipeline wraps the given transcriber with no turns |
| Transcription.TranscriptionPipeline.ProcessVoiceSegments | sales_coach/src/audio/transcription.py:361-380 | the transcriber's queue becomes QueueAll of the old queue and the segments; loaded, running, the transcription count and the processing time are unchanged |
| Transcription.TranscriptionPipeline.HandleTranscriptionResult | sales_coach/src/audio/transcription.py:405-426 | returns TurnFor(t); the turn list grows by exactly that turn, or stays unchanged when there is none |
| Transcription.TranscriptionPipeline.RecentTurns | sales_coach/src/audio/transcription.py:428-430 | a suffix of the turns: the last count of them, or all of them when count is 0 or larger than the list |
| Transcription.TranscriptionPipeline.ClearHistory | sales_coach/src/audio/transcription.py:432-434 | the turn list is empty |
| Diarization.WindowEnd | sales_coach/src/audio/diarization.py:149-155 | a window ends two seconds of samples after its start, or at the end of the audio when that comes first |
| Diarization.FallbackDiarization | sales_coach/src/audio/diarization.py:144-176 | its loop yields exactly the fallback segments from sample 0: one per window whose RMS exceeds 0.02, labelled alternately SPEAKER_1 / SPEAKER_2 by window index, confidence 0.5 |
| Diarization.FallbackSegmentFacts | sales_coach/src/audio/diarization.py:152-174 | a fallback segment starts at i / sample_rate, lasts a positive time of at most two seconds, and ends inside the audio |
| Diarization.FallbackShape | sales_coach/src/audio/diarization.py:144-176 | the fallback's segments are in time order without overlap, lie inside the audio, last at most two seconds each and carry confidence 0.5 |
| Diarization.PipelineSegments | sales_coach/src/audio/diarization.py:121-133 | one segment per pipeline track, each with confidence 1.0 and no audio |
| Diarization.DiarizedConfidence | sales_coach/src/audio/diarization.py:94-142 | diarize_audio's segments all carry 1.0 when the pipeline is loaded and succeeds, and 0.5 (the fallback) otherwise, including when the pipeline raises |
| Diarization.Shift | sales_coach/src/audio/diarization.py:203-208 | shifting keeps the number of segments |
| Diarization.ShiftKeepsShape | sales_coach/src/audio/diarization.py:203-208 | shifting by base keeps every label and duration, moves each start by exactly base, and keeps ordered segments ordered |
| Diarization.AudioChunks | sales_coach/src/audio/diarization.py:184-193 | the joined audio is empty exactly when no voice segment carries audio |
| Diarization.FirstAudioStart | sales_coach/src/audio/diarization.py:205-206 | the base time exists exactly when some segment carries audio, and it is the start of such a segment |
| Diarization.ProcessVoiceSegmentsAsWritten | sales_coach/src/audio/diarization.py:178-210 | as written, the call raises exactly when some voice segment carries audio (the configuration has no sample_rate), and otherwise returns no segments |
| Diarization.AsWrittenRaisesOnAnyAudio | sales_coach/src/audio/diarization.py:199 | a single voiced segment with audio already makes the method as written raise |
| Diarization.VoiceSegmentsFallbackPlacement | sales_coach/src/audio/diarization.py:178-210 | with the fallback, the corrected method's segments are ordered and none starts before the first voiced segment |
| Diarization.AddTimeFacts | sales_coach/src/audio/diarization.py:225-229 | adding talk time keeps labels distinct, adds the label, and adds d to that label's time only |
| Diarization.SpeakerTimesFacts | sales_coach/src/audio/diarization.py:224-229 | speaker_times holds each heard label exactly once with the summed duration of its segments |
| Diarization.InsertMembers | sales_coach/src/audio/diarization.py:232 | inserting into the ranking adds exactly the one entry |
| Diarization.SortFacts | sales_coach/src/audio/diarization.py:232 | the sort by talk time is a permutation of its input (same length, same members, same labels, distinctness kept) and is non-increasing |
| Diarization.AssignFacts | sales_coach/src/audio/diarization.py:236-249 | the role assignment maps every ranked label to the role of its rank and leaves other labels alone |
| Diarization.AssignKeys | sales_coach/src/audio/diarization.py:236-249 | the role mapping holds exactly the ranked labels besides those already present |
| Diarization.AssignOther | sales_coach/src/audio/diarization.py:236-249 | a label absent from the ranking keeps the role it had |
| Diarization.AssignRanked | sales_coach/src/audio/diarization.py:236-249 | with distinct labels, the label ranked j-th gets the role of rank j: the rep, then the customer, then unknown |
| Diarization.FallbackFromStart | sales_coach/src/audio/diarization.py:144-176 | from the start of the audio, the fallback's segments are in time order and none starts before zero |
| Diarization.BestOverlapStep | sales_coach/src/audio/diarization.py:296-305 | scanning one more segment replaces the best match only when it overlaps strictly longer, so ties keep the first |
| Diarization.RankOf | sales_coach/src/audio/diarization.py:212-252 | the roles cover exactly the heard labels; the ranking is descending and distinct; the label at rank p has its talk time and the role of rank p |
| Diarization.RolesByTalkTime | sales_coach/src/audio/diarization.py:212-252 | every heard label has a role; the sales rep talks at least as much as anyone, the customer at least as much as anyone except the rep; each is unique; a rep exists when any segment exists and a customer when two labels were heard |
| Diarization.RolesRanked | sales_coach/src/audio/diarization.py:238-249 | the rep out-talks everyone, the customer everyone but the rep, and neither role is given twice |
| Diarization.RolesPresent | sales_coach/src/audio/diarization.py:238-245 | every heard label gets a role, a rep whenever segments exist, a customer whenever two labels were heard |
| Diarization.LoneSpeakerIsSalesRep | sales_coach/src/audio/diarization.py:243-245 | segments all of one label give exactly that label the sales-rep role |
| Diarization.IdentifySpeakerRoles | sales_coach/src/audio/diarization.py:212-252 | the two loops compute exactly IdentifiedRoles(segments) |
| Diarization.NewProfileView | sales_coach/src/audio/diarization.py:262-275 | a new profile has the label's role, the segment's duration as total and mean, count 1, and is well shaped |
| Diarization.RunningMean | sales_coach/src/audio/diarization.py:283-285 | the new mean times count + 1 equals the old mean times count plus the new duration |
| Diarization.UpdatedView | sales_coach/src/audio/diarization.py:277-290 | a known profile keeps its role, gains one update and the segment's duration, and stays well shaped with mean times count equal to total |
| Diarization.Absorb | sales_coach/src/audio/diarization.py:258-290 | one segment adds its label to the profiles and never changes an existing profile's role |
| Diarization.AbsorbAllStep | sales_coach/src/audio/diarization.py:258-290 | the profile loop after i + 1 segments is one Absorb step after the loop over i segments |
| Diarization.AbsorbAllShaped | sales_coach/src/audio/diarization.py:258-290 | every profile keeps segment count = updates + 1 |
| Diarization.AbsorbAllKeys | sales_coach/src/audio/diarization.py:258-290 | the profiles afterwards are the old labels plus exactly the batch's labels |
| Diarization.AbsorbAllRoles | sales_coach/src/audio/diarization.py:260-275 | a known label keeps its role; a new label gets its role in the batch's mapping (unknown when absent) |
| Diarization.AbsorbAllTotals | sales_coach/src/audio/diarization.py:264-290 | every label's total duration grows by exactly its talk time in the batch |
| Diarization.AbsorbAllMean | sales_coach/src/audio/diarization.py:283-288 | the average segment length stays the total duration divided by the segment count |
| Diarization.NewSpeakersGetBatchRoles | sales_coach/src/audio/diarization.py:254-275 | labels new to the diarizer get the role identify_speaker_roles gives them in the batch |
| Diarization.BestOverlap | sales_coach/src/audio/diarization.py:295-306 | None exactly when nothing overlaps; otherwise an overlapping segment with the largest overlap, the first of equal ones |
| Diarization.Recent | sales_coach/src/audio/diarization.py:320-324 | the buffer keeps, in order, exactly the chunks whose timestamp is at least the cutoff, including the newest when it qualifies |
| Diarization.BufferWindow | sales_coach/src/audio/diarization.py:317-324 | after a chunk arrives, the buffer ends with it and holds nothing older than thirty seconds before it |
| Diarization.SpeakerDiarization.constructor | sales_coach/src/audio/diarization.py:49-63 | an empty diarizer: no known speakers, segments or buffer; whether the pipeline loaded is an input |
| Diarization.SpeakerDiarization.DiarizeAudio | sales_coach/src/audio/diarization.py:94-142 | returns Diarized: the pipeline's tracks when loaded and successful, the fallback otherwise |
| Diarization.SpeakerDiarization.ProcessVoiceSegments | sales_coach/src/audio/diarization.py:178-210 | corrected to take the sample rate from its caller: diarize the joined audio of the segments with audio and shift the result to the first such segment's start |
| Diarization.SpeakerDiarization.AbsorbSegment | sales_coach/src/audio/diarization.py:258-290 | the profiles become Absorb(old profiles, segment, role); profile objects are old or fresh; nothing else changes |
| Diarization.SpeakerDiarization.FoldKnown | sales_coach/src/audio/diarization.py:277-290 | the known label's profile becomes UpdatedView of its old one; the other profiles are unchanged |
| Diarization.SpeakerDiarization.AddProfile | sales_coach/src/audio/diarization.py:262-275 | a fresh profile object for the new label holding NewProfileView; the other profiles are unchanged |
| Diarization.SpeakerDiarization.CreateSpeakerProfiles | sales_coach/src/audio/diarization.py:254-290 | the profiles become AbsorbAll of the old profiles with the batch and its role mapping |
| Diarization.SpeakerDiarization.GetSpeakerForSegment | sales_coach/src/audio/diarization.py:292-312 | None exactly when no stored segment overlaps; otherwise the role of the best-overlap segment's label, unknown when it has no profile |
| Diarization.SpeakerDiarization.ProcessRealTime | sales_coach/src/audio/diarization.py:314-358 | the buffer becomes Recent(old buffer + chunk); off the tenth-chunk tick nothing else changes and no segments return; on it, the buffer is diarized at 16 kHz, shifted to its oldest timestamp, recorded, and folded into the profiles |
| Diarization.SpeakerDiarization.DiarizeBuffer | sales_coach/src/audio/diarization.py:334-354 | the segments are the shifted diarization of the buffered audio; they are appended to the stored segments and folded into the profiles |
| Diarization.SpeakerDiarization.BufferChunk | sales_coach/src/audio/diarization.py:316-324 | the buffer becomes Recent(old buffer + chunk, timestamp - 30); profiles unchanged |
| Diarization.SpeakerDiarization.RecordSegments | sales_coach/src/audio/diarization.py:349 | the stored segments grow by exactly the new ones |
| Diarization.NewProfile | sales_coach/src/audio/diarization.py:264-274 | a fresh, valid profile object whose content is NewProfileView |
| Diarization.FoldInto | sales_coach/src/audio/diarization.py:279-290 | the profile object's content becomes UpdatedView of its old content |
| Diarization.ShiftSegments | sales_coach/src/audio/diarization.py:203-208 | the shift loop computes exactly Shift(segments, base) |
| Coaching.FirstFenceCut | sales_coach/src/llm/coaching.py:318-321 | `split("```")[0]` is the prefix before the first "```" of the text (no "```" starts earlier), or all of it |
| Coaching.FencedBlock | sales_coach/src/llm/coaching.py:317-321 | there is a block iff the reply holds "```"; with a "```json" the block is the text between the first and the next "```json" cut before its first "```"; otherwise the text after the first "```" cut before the next "```" |
| Coaching.BraceSpan | sales_coach/src/llm/coaching.py:323-328 | there is a span iff some "{" comes before some "}"; it is a slice of the reply that starts with "{" and ends with "}", with no "{" before it and no "}" after it |
| Coaching.Extract | sales_coach/src/llm/coaching.py:316-332 | a non-empty fenced block, else the brace span, else the whole reply; in every case a contiguous piece of the reply |
| Coaching.ExtractJson | sales_coach/src/llm/coaching.py:302-337 | nothing is extracted exactly when the reply is blank or its chosen payload strips to nothing; otherwise the payload is the stripped extraction from the stripped reply, non-empty and already stripped |
| Coaching.JsonMarkerAfter | sales_coach/src/llm/coaching.py:317-318 | with no backtick before it, the first "```json" is found right after the leading text |
| Coaching.FenceTicks | sales_coach/src/llm/coaching.py:317-321 | where "```" occurs, its three characters are backticks |
| Coaching.JsonTicks | sales_coach/src/llm/coaching.py:317-318 | where "```json" occurs, its first three characters are backticks |
| Coaching.PayloadBeforeFence | sales_coach/src/llm/coaching.py:317-321 | when backtick-free text is followed by "```", whatever comes after, the fence-delimited payload is exactly that text |
| Coaching.JsonCutAfterPayload | sales_coach/src/llm/coaching.py:318 | after a backtick-free payload and "```" followed by text that does not open with a backtick, the next "```json" starts at that fence or after it |
| Coaching.FencedPayload | sales_coach/src/llm/coaching.py:317-318 | backtick-free text, "```json", a backtick-free payload (possibly empty), "```" and text not opening with a backtick: the fenced block is exactly that payload |
| Coaching.FencedFirst | sales_coach/src/llm/coaching.py:314-332 | in such a reply a non-empty payload is what is extracted, whatever braces surround it |
| Coaching.EmptyFenceFallsThrough | sales_coach/src/llm/coaching.py:317-332 | an empty "```json```" block is found but falls through to the brace span, and without one to the whole reply |
| Coaching.JsonCutBeforeFence | sales_coach/src/llm/coaching.py:318 | the block is cut at the next "```json" before "```": for a backtick-free payload followed by "`" and another "```json" (as in "```jsonab````json") the block is the payload plus that backtick, though a "```" starts inside it |
| Coaching.StraddleSection | sales_coach/src/llm/coaching.py:318 | after a backtick-free payload and one backtick, the first "```json" is the one right after that backtick |
| Coaching.BracesWithoutFence | sales_coach/src/llm/coaching.py:323-332 | without a fence the payload is the span from the first "{" to the last "}", or the whole reply when there is none |
| Coaching.BlankFenceRejects | sales_coach/src/llm/coaching.py:331-337 | a fenced block of only whitespace is kept (it is not empty), so the reply yields nothing even when it also holds a brace span |
| Coaching.OptString | sales_coach/src/llm/coaching.py:346-347 | an optional text field never crashes the parse |
| Coaching.ReqString | sales_coach/src/llm/coaching.py:359-360 | a required text field parses exactly when it is present as a string |
| Coaching.ReqEnum | sales_coach/src/llm/coaching.py:348-358 | a required enumeration field never crashes the parse |
| Coaching.OptEnum | sales_coach/src/llm/coaching.py:350-351 | an optional enumeration field never crashes the parse |
| Coaching.Strings | sales_coach/src/llm/coaching.py:349 | a list parses exactly when every item is a string, and then item by item |
| Coaching.Topics | sales_coach/src/llm/coaching.py:349 | the key-topics field never crashes the parse |
| Coaching.AnalysisFrom | sales_coach/src/llm/coaching.py:345-352 | the analysis crashes exactly when it is not an object; a parsed analysis's stage is the value stored under conversation_stage |
| Coaching.AdviceFrom | sales_coach/src/llm/coaching.py:355-363 | the advice crashes exactly when it is not an object; a parsed advice's priority, category, insight and suggested action are the stored values |
| Coaching.ConfidenceOf | sales_coach/src/models/conversation.py:110-113 | the float field takes a number as itself and a boolean as 1.0 or 0.0, and rejects anything else |
| Coaching.ResponseFrom | sales_coach/src/llm/coaching.py:341-373 | a non-object crashes, a missing analysis rejects; a parsed response has analysis, primary advice and a confidence in [0, 1] read from the payload (a number, or a boolean as 1.0 or 0.0), the given context window and time, and no secondary advice |
| Coaching.ParseCoachingResponse | sales_coach/src/llm/coaching.py:302-378 | a blank reply is rejected; a parsed response comes from decoding the extracted payload and reading it with ResponseFrom |
| Coaching.SentimentRoundTrip | sales_coach/src/llm/coaching.py:350-351 | sentiment and engagement names read back as the same values |
| Coaching.AnalysisJsonLookups | sales_coach/src/llm/coaching.py:345-352 | the JSON an analysis is written as holds each field under its key |
| Coaching.AnalysisFieldsRoundTrip | sales_coach/src/llm/coaching.py:345-352 | every field of a written analysis reads back as that field |
| Coaching.AnalysisTextRoundTrip | sales_coach/src/llm/coaching.py:346-349 | concern, approach, stage and topics read back unchanged |
| Coaching.StageFieldRoundTrip | sales_coach/src/llm/coaching.py:348 | a written stage reads back as itself |
| Coaching.TopicsFieldRoundTrip | sales_coach/src/llm/coaching.py:349 | a written topic list reads back as itself |
| Coaching.AnalysisRatingsRoundTrip | sales_coach/src/llm/coaching.py:350-351 | a written sentiment and engagement, or their absence, read back unchanged |
| Coaching.AnalysisRoundTrip | sales_coach/src/llm/coaching.py:345-352 | reading back a written analysis gives the same analysis |
| Coaching.StringsRoundTrip | sales_coach/src/llm/coaching.py:349 | a written string list reads back as itself |
| Coaching.AdviceRoundTrip | sales_coach/src/llm/coaching.py:355-363 | reading back a written advice gives the same advice |
| Coaching.ResponseRoundTrip | sales_coach/src/llm/coaching.py:366-371 | reading back a written response, with its own context window and time, gives the same response |
| Coaching.BracedExtract | sales_coach/src/llm/coaching.py:304-337 | a reply that strips to a fence-free text running from "{" to "}" hands all of that stripped text to the decoder |
| Coaching.BracedReplyRoundTrip | sales_coach/src/llm/coaching.py:302-373 | a reply that, stripped, is a fence-free "{...}" text decoding to the JSON of a valid response parses back to that response |
| Coaching.AnalyzeConversation | sales_coach/src/llm/coaching.py:216-247 | a response only comes from a loaded model, a non-empty turn list and a successful call; it records the number of turns, the time and a confidence in [0, 1], and is the parse of the stripped reply |
| Coaching.StripBeforeParse | sales_coach/src/llm/coaching.py:302-306 | stripping the reply before parsing changes nothing, since the parse strips again |
| Coaching.ExtractAfterStrip | sales_coach/src/llm/coaching.py:306 | extraction from a stripped reply equals extraction from the raw reply |
| Coaching.TriggerMonotone | sales_coach/src/llm/coaching.py:124-139 | once the trigger holds, it still holds with more turns and at a later time |
| Coaching.SalesCoachLlm.constructor | sales_coach/src/llm/coaching.py:32-53 | a coach with the configured minimum length, interval and window, an empty conversation, no queued requests and analysis stopped |
| Coaching.SalesCoachLlm.AddConversationTurn | sales_coach/src/llm/coaching.py:116-122 | the turn is appended; when the trigger holds a request for the recent window is queued and analysis runs; otherwise the queue is unchanged |
| Coaching.SalesCoachLlm.QueueAnalysis | sales_coach/src/llm/coaching.py:141-155 | exactly one request is appended, holding the conversation's last `context window` turns (`RecentTurns`) stamped with the current time; analysis is running and the model's loaded flag is unchanged |
| Coaching.SalesCoachLlm.StartAnalysis | sales_coach/src/llm/coaching.py:157-167 | analysis is running and the queue is unchanged |
| Coaching.SalesCoachLlm.StopAnalysis | sales_coach/src/llm/coaching.py:169-179 | analysis is stopped and the queue is unchanged |
| Coaching.SalesCoachLlm.WorkerStep | sales_coach/src/llm/coaching.py:181-214 | an empty queue does nothing; otherwise the oldest request is removed and analysed, and a response is appended to the recent coaching responses, of which the last 20 are kept |
| Coaching.SalesCoachLlm.ForceAnalysis | sales_coach/src/llm/coaching.py:380-389 | no turns give nothing; otherwise the analysis of the recent context window |
| Coaching.ForcedWindow | sales_coach/src/llm/coaching.py:385-387 | a forced analysis of a non-empty conversation sees a non-empty suffix of at most window turns |
| FinalCoach.FirstFiring | final_integrated_coach.py:252-306 | the first rule of the table whose condition holds, every earlier one failing; None only when no rule fires |
| FinalCoach.SomeRuleFires | final_integrated_coach.py:300-306 | the rule engine always answers: the catch-all branch fires on every text |
| FinalCoach.RuleBasedIsFirstMatch | final_integrated_coach.py:252-306 | the if/elif chain gives the advice of the first rule of the table that fires (price, problem, question mark, solution, more than 20 words, greeting, default) |
| FinalCoach.HiInsideThis | final_integrated_coach.py:293 | keywords are matched as substrings: "this" contains "hi" and so gets the rapport-building advice |
| FinalCoach.ThisHasNoKeyword | final_integrated_coach.py:258-285 | "this" holds no price, problem or solution keyword |
| FinalCoach.ThisNotPricing | final_integrated_coach.py:258 | "this" holds no price keyword |
| FinalCoach.ThisNotProblem | final_integrated_coach.py:265 | "this" holds no problem keyword |
| FinalCoach.ThisNotSolution | final_integrated_coach.py:279 | "this" holds no solution keyword |
| FinalCoach.NoneIn | final_integrated_coach.py:258-293 | a text that contains none of a rule's keywords does not fire it |
| FinalCoach.ThisIsShortStatement | final_integrated_coach.py:272-286 | "this" has no question mark and fewer than 21 words |
| FinalCoach.FinalIntegratedCoach.constructor | final_integrated_coach.py:74-89 | availability is the probe's result, no failures, zero counts, breaker invariant holds |
| FinalCoach.FinalIntegratedCoach.GetCoachingAdvice | final_integrated_coach.py:158-172 | when the model is tried and answers, its advice; when it is tried and fails, one more failure and the rule advice, the model disabled exactly when three failures are reached; when not tried, the rule advice with nothing changed; a disabled model stays disabled; while the model is enabled the failure count moves as FailuresAfter of one attempt |
| FinalCoach.FinalIntegratedCoach.HandleTranscript | final_integrated_coach.py:337-358 | advice is given exactly when the RMS exceeds the threshold and the stripped transcript is longer than two characters; then both counters grow by one and the advice is the model's or the rules' on the stripped text; otherwise nothing changes |
| FinalCoach.FinalIntegratedCoach.CoachTranscript | final_integrated_coach.py:344-358 | one coached transcript: both counters grow by one and the advice is the model's when tried and answering, else the rules' |
| FinalCoach.FailuresAfter | final_integrated_coach.py:160-169 | the failure counter never decreases and never exceeds three |
| FinalCoach.ThreeFailuresTrip | final_integrated_coach.py:160-169 | successes never reset the counter: after any run it is the starting count plus the failures, capped at three |
| StableCoach.AdviceResets | stable_coach.py:77-79 | a response with advice returns that advice and resets the error counter |
| StableCoach.FailureCounts | stable_coach.py:83-97 | a failed call returns no advice and adds one error, unless the third error triggers a restart: a system that is created resets the counter and is installed only if it loaded; a restart that raises leaves the counter at three or more |
| StableCoach.BelowLimitWhileRestartsWork | stable_coach.py:83-97 | while every restart returns a system, the error counter stays below three |
| StableCoach.FailuresCycle | stable_coach.py:83-97 | when every call fails and every restart returns a system, the counter is (errors + calls) mod 3 and one restart happens per three failures |
| StableCoach.FailuresAccumulate | stable_coach.py:83-97 | when every restart raises, the counter counts every failure and never comes back down |
| StableCoach.TurnFromTranscript | stable_coach.py:138-154 | a turn is built exactly when the stripped text is longer than two characters; building it succeeds exactly when the confidence lies in [0, 1]; the turn has an unknown speaker, the stripped text, the confidence and the time |
| StableCoach.TranscriptFilterIgnoresPadding | stable_coach.py:138-139 | surrounding whitespace does not change which transcripts become turns |
| StableCoach.StableSalesCoach.constructor | stable_coach.py:49-63 | after start-up: a coaching system is installed, no errors, no restarts, zero tallies |
| StableCoach.StableSalesCoach.SafeCoachingAnalysis | stable_coach.py:71-97 | the new counter, system and restart count and the advice are exactly SafeStep of the old ones |
| StableCoach.StableSalesCoach.HandleTranscript | stable_coach.py:136-170 | a filtered-out transcript changes nothing; a kept one is counted; a turn that fails to build stops there; a built one goes through SafeStep, counts as processed, and counts as coached exactly when advice comes back |
| UltraStable.FirstKeyword | ultra_stable_coach.py:89-97 | the first keyword, in dictionary order, found in the lowercased text, no earlier one being found; None exactly when no keyword is found |
| UltraStable.UltraCoaching | ultra_stable_coach.py:70-120 | the result always carries the given confidence |
| UltraStable.KeywordRuleFirst | ultra_stable_coach.py:88-97 | keyword-based advice exactly when some keyword occurs in the lowercased text; it is medium priority and names the first keyword found in dictionary order |
| UltraStable.KeywordsDistinct | ultra_stable_coach.py:77-86 | the dictionary lists each keyword once |
| UltraStable.PriceBeforeCost | ultra_stable_coach.py:77-97 | a text that mentions "price" always gets the price advice, whatever else it mentions |
| UltraStable.FallbackRules | ultra_stable_coach.py:99-120 | without a keyword, more than 15 words gives high-priority listening advice (even with a question mark), else a question mark gives high-priority question advice, else low-priority engagement advice |
| IntegrationScript.SimpleCoachingOrder | tests/test_integration.py:114-138 | the rules apply in order: a greeting wins over everything, then the discovery test, then the value test, and only a text with none of them gets the listening advice |
| IntegrationScript.GreetingIgnoresCase | tests/test_integration.py:116-119 | lowercasing the text first does not change whether it gets the opening advice |
| IntegrationScript.LowerIdempotent | tests/test_integration.py:116 | lowercasing twice is lowercasing once |
| IntegrationScript.AdviceNonEmpty | tests/test_integration.py:119-138 | every dictionary the rule engine returns is truthy |
| IntegrationScript.Successes | tests/test_integration.py:93-107 | never more successes than inputs |
| IntegrationScript.SuccessRate | tests/test_integration.py:109 | a rate exists exactly when there is at least one input (otherwise the division raises) |
| IntegrationScript.EveryInputSucceeds | tests/test_integration.py:95-107 | every input counts as a success |
| IntegrationScript.AnyScriptPasses | tests/test_integration.py:93-112 | any non-empty input list scores 100 percent, so the test passes whatever the sentences |
| IntegrationScript.ScriptedAdvice | tests/test_integration.py:84-112 | the three scripted sentences get the opening, discovery and value advice, in that order, and the test passes |
| IntegrationScript.OpeningAdvice | tests/test_integration.py:85 | the first sentence gets the opening advice |
| IntegrationScript.QuestionAdvice | tests/test_integration.py:86 | the second sentence gets the discovery advice |
| IntegrationScript.ValueAdvice | tests/test_integration.py:87 | the third sentence gets the value advice |
| Orchestrator.WindowOfWindow | sales_coach/coach.py:154-156 | trimming the list to the last n after every append equals keeping the last n of the whole history |
| Orchestrator.Truncate | sales_coach/coach.py:330 | int() truncates toward zero: for a non-negative duration the result is its whole seconds, r <= x < r + 1 |
| Orchestrator.Digits | sales_coach/coach.py:332 | the decimal digits of n: one digit exactly below 10, at most two below 100 |
| Orchestrator.Pad2 | sales_coach/coach.py:332 | {:02d} gives at least two characters for non-negative values and exactly two below 100 |
| Orchestrator.ParseDigits | sales_coach/coach.py:332 | the decimal digits of n read back as n |
| Orchestrator.ParseLeadingZero | sales_coach/coach.py:332 | a leading zero does not change the number read |
| Orchestrator.ParsePad2 | sales_coach/coach.py:332 | a zero-padded field reads back as its value |
| Orchestrator.ClockSplit | sales_coach/coach.py:332 | a text of hours, colon, two minute digits, colon, two second digits is read field by field |
| Orchestrator.ClockRoundTrip | sales_coach/coach.py:329-332 | the HH:MM:SS text of a non-negative number of seconds reads back as that number |
| Orchestrator.ClockFields | sales_coach/coach.py:330-331 | divmod by 3600 and by 60 give minutes and seconds in [0, 59] that add back up to the total |
| Orchestrator.ZeroClock | sales_coach/coach.py:326-327 | the no-session text "00:00:00" is the clock of zero seconds |
| Orchestrator.FormatDuration | sales_coach/coach.py:324-332 | without a session the text is "00:00:00", which reads back as 0; otherwise it reads back as the whole seconds elapsed since the start, cut toward zero, with an hours field of at least two characters |
| Orchestrator.SalesCoach.constructor | sales_coach/coach.py:31-64 | no components, not running, no session start, empty recent lists, no current advice, zero statistics |
| Orchestrator.SalesCoach.HandleAudioChunk | sales_coach/coach.py:133-150 | without a VAD nothing happens; otherwise the chunk is counted, and voiced segments go to the diarizer and then, when present, to transcription |
| Orchestrator.SalesCoach.HandleConversationTurn | sales_coach/coach.py:152-164 | the recent turns become the last 20 of the old ones plus the turn, ending with it; the turn count grows by one; the turn is forwarded to coaching when present; the recent list stays the last 20 of all turns |
| Orchestrator.SalesCoach.HandleCoachingResponse | sales_coach/coach.py:166-175 | the recent coaching becomes the last 10 of the old plus the response; it is the current advice; the event count grows by one |
| Orchestrator.SalesCoach.InitializeComponents | sales_coach/coach.py:86-131 | success exactly when both transcription and coaching load; capture, VAD and diarizer are always installed, and a coaching failure leaves transcription installed |
| Orchestrator.SalesCoach.Start | sales_coach/coach.py:177-213 | an already running coach returns true with nothing changed; otherwise it initialises when needed and succeeds exactly when the components are there and capture starts, then starts capture, transcription and analysis in that order and records the start time |
| Orchestrator.SalesCoach.Stop | sales_coach/coach.py:215-244 | not running afterwards; a running coach stops capture, transcription, analysis and VAD adaptation, in that order, for the components it has |
| Config.Upper | sales_coach/src/models/config.py:136-138 | str.upper character by character, keeping the length |
| Config.UpperIdempotent | sales_coach/src/models/config.py:136-138 | upper-casing twice is upper-casing once, and leaves no lower-case letter |
| Config.ValidateSampleRate | sales_coach/src/models/config.py:24-28 | accepted exactly for 8000, 16000, 22050, 44100 and 48000, unchanged |
| Config.ValidateChunkDuration | sales_coach/src/models/config.py:30-34 | accepted exactly for 0 < v <= 30, unchanged |
| Config.ValidateWhisperModel | sales_coach/src/models/config.py:56-61 | accepted exactly for tiny, base, small, medium and large, unchanged |
| Config.ValidateTemperature | sales_coach/src/models/config.py:63-67 | accepted exactly for 0 <= v <= 2, unchanged |
| Config.ValidateCoachingInterval | sales_coach/src/models/config.py:98-102 | accepted exactly for 5 <= v <= 300, unchanged |
| Config.ValidatePercentage | sales_coach/src/models/config.py:127-131 | accepted exactly for 0 < v <= 100, unchanged |
| Config.ValidateLogLevel | sales_coach/src/models/config.py:133-138 | accepted exactly when the upper-cased value is a known level, and then stored upper-cased |
| Config.LogLevelNormalises | sales_coach/src/models/config.py:133-138 | values with the same upper-case form validate alike, and a validated level validates to itself |
| Config.ValidateAudio | sales_coach/src/models/config.py:9-34 | the audio section is accepted exactly when its sample rate and chunk duration are, unchanged |
| Config.ValidateModels | sales_coach/src/models/config.py:37-67 | the model section is accepted exactly when its Whisper model and temperature are, unchanged |
| Config.ValidateCoaching | sales_coach/src/models/config.py:70-102 | the coaching section is accepted exactly when its interval is, unchanged |
| Config.ValidateSystem | sales_coach/src/models/config.py:105-138 | the system section is accepted exactly when both percentages and the log level are; the level is stored upper-cased |
| Config.ValidateConfig | sales_coach/src/models/config.py:141-147 | a configuration is accepted exactly when every validator accepts; the result is the input with its log level upper-cased, and is normal |
| Config.ValidateIdempotent | sales_coach/src/models/config.py:141-147 | validating a validated configuration gives it back |
| Config.NormalIsFixpoint | sales_coach/src/models/config.py:141-147 | a normal configuration validates to itself |
| Config.UpperOfLevels | sales_coach/src/models/config.py:135-138 | the known levels are already upper-case |
| Config.DefaultsNormal | sales_coach/src/models/config.py:9-147 | the defaults pass every validator and are their own validation |
| Config.Converted | sales_coach/src/models/config.py:206-217 | only the coaching interval is converted (float), failing exactly when the parse fails; the other fields take the raw text |
| Config.Assign | sales_coach/src/models/config.py:206-217 | setattr succeeds exactly when conversion does, sets that one field, and leaves every other field as it was |
| Config.Base | sales_coach/src/models/config.py:187-195 | no file gives the defaults; a file's data is accepted exactly when it passes validation; the base is always normal |
| Config.LoadConfig | sales_coach/src/models/config.py:187-219 | a failing file load raises; otherwise the overrides are applied to the base in dictionary order |
| Config.OverridesEffect | sales_coach/src/models/config.py:206-217 | applying distinct overrides raises exactly when a set variable fails conversion; otherwise each targeted field is its converted value when set and unchanged when not, and every other field is unchanged |
| Config.NoEnvKeepsBase | sales_coach/src/models/config.py:206-207 | with no SALES_COACH_ variable set, the configuration is the base |
| Config.OverridesDistinct | sales_coach/src/models/config.py:198-204 | the override dictionary names each field once |
| Config.RestAndFields | sales_coach/src/models/config.py:198-204 | the five overridable fields and the rest determine a configuration |
| Config.LoadFailsOnlyOnInterval | sales_coach/src/models/config.py:206-217 | loading with overrides raises exactly when the interval variable is set and does not parse |
| Config.OverridesSkipValidation | sales_coach/src/models/config.py:206-217 | an interval below 5 from the environment is kept, so the loaded configuration would fail validation |
| Config.LogLevelOverrideRaw | sales_coach/src/models/config.py:206-217 | the log level from the environment is stored as given, not upper-cased |
| Text.TrimStart | final_integrated_coach.py:344-345 | removes exactly the leading whitespace |
| Text.TrimEnd | final_integrated_coach.py:344-345 | removes exactly the trailing whitespace |
| Text.Strip | final_integrated_coach.py:344-345 | str.strip: empty exactly for blank text, otherwise starting and ending with non-space |
| Text.StripShape | final_integrated_coach.py:344-345 | the stripped text is a slice of the original |
| Text.StripIdempotent | final_integrated_coach.py:344-345 | stripping twice is stripping once |
| Text.Lower | final_integrated_coach.py:254 | str.lower character by character, keeping the length |
| Text.LowerConcat | final_integrated_coach.py:254 | lower-casing distributes over concatenation |
| Text.StartsWithIff | final_integrated_coach.py:258 | the prefix test agrees with slicing |
| Text.ContainsIff | final_integrated_coach.py:258 | the substring test holds exactly when the pattern occurs at some position |
| Text.MissingCharExcludes | final_integrated_coach.py:258 | a text lacking one of the pattern's characters does not contain it |
| Text.Find | sales_coach/src/llm/coaching.py:325 | the first position where the pattern occurs, or None when it never does |
| Text.RFindChar | sales_coach/src/llm/coaching.py:326 | the last position of the character, or None when it is absent |
| Text.FindChar | sales_coach/src/llm/coaching.py:323-325 | for a one-character pattern, the found position holds the character and no earlier one does; None iff the character is absent |
| Text.SplitFirst | sales_coach/src/llm/coaching.py:318-321 | `split(sep)[0]`: a prefix of the text with no occurrence of the separator starting inside it, which is either the whole text or followed by the separator |
| Text.ContainsAcrossSpace | final_integrated_coach.py:258 | a space-free pattern occurs in two pieces split at a space exactly when it occurs in one of them |
| Text.WordCount | final_integrated_coach.py:255 | len(text.split()) is at most the length |
| Text.WordCountAppendWord | final_integrated_coach.py:255 | appending a word after a space adds one word |
| Text.WordCountBlank | final_integrated_coach.py:255 | blank text has no words |
| Common.LastN | sales_coach/coach.py:155-156 | the last n items (all when fewer): a suffix of length min(len, n) |

## Left out

- Inference engines and model loading (the Silero torch model, Whisper and whisper.cpp, the pyannote pipeline, llama_cpp, and the subprocess LLM scripts whose `SUCCESS:` output final_integrated_coach.py parses) are foreign calls. Each is an outcome datatype (`Vad.ModelCall`, `Transcription.EngineCall`, `Diarization.PipelineCall`, `Coaching.LlmCall`) or an optional advice passed in by the caller.
- Threads and worker loops (`start_real_time_processing`, `_analysis_worker`, `_adaptation_worker`, `_process_audio_chunks`, `_transcription_worker`) are concurrency machinery. Each is modelled as one sequential step of its loop; sleeps, daemon threads and the joins in the `stop_*` methods are not modelled.
- Floating point: RMS over sample arrays, `np.percentile` interpolation, `exp(avg_logprob)` confidences and audio normalisation are inputs (a chunk's `rms`, the `rms` and `percentile20` function parameters, the engine's confidence). Reals are exact, so rounding is not modelled.
- Audio hardware and device I/O: sounddevice streams, `_update_devices`, `get_output_devices`, `get_status`, `list_devices` and `AudioTestUtility` are left out. The device list and the host's default input name are parameters.
- Capture.AudioBuffer.Get: the blocking get with a timeout is modelled as a non-blocking get that returns None on an empty queue, because waiting is not modelled.
- The UI and CLI are left out: `create_status_display`, its colour maps and the print-heavy `run` loops.
- File I/O: reading and parsing the config file in `from_file` is a parameter of `Config.LoadConfig` (absent, or a parsed-or-rejected config). `to_file`, `create_directories` and model path discovery are left out.
- `json.loads` is the `decode` parameter of the coaching parser; only the extraction step and the required-field and enum checks are modelled. `_create_analysis_prompt` is prompt templating and is left out.
- Error messages: a rejected value gives `Raised(error: string)` carrying the validator's message; the two messages that list the valid values (Whisper model and log level) are shortened. pydantic reports every failing field at once, while the validators here stop at the first one.
- Coaching.ConfidenceOf: a JSON string such as "0.8" is rejected, while pydantic's float field converts a numeric string; decimal text parsing is not modelled.
- Coaching.ResponseFrom: a `confidence` given as a numeric string (such as "0.8"), which pydantic's float field converts, is rejected here, because parsing decimal text into a number is not modelled; numbers and booleans are taken as pydantic takes them.
- Coaching.SalesCoachLlm.QueueAnalysis: when the conversation has no more turns than the context window, the source queues the live turn list itself, so turns added before the worker runs are seen by the analysis (sales_coach/src/models/conversation.py:174-176, sales_coach/src/llm/coaching.py:143-146 and 241); the model queues a copy of the window taken when the request is made, because aliasing between the queue and the conversation is not modelled.
- Diarization.SpeakerDiarization.ProcessRealTime: the `except Exception: return []` branch (sales_coach/src/audio/diarization.py:356-358) is not modelled, because the pipeline's exceptions are already caught inside `diarize_audio` and nothing else in the modelled step raises; NumPy errors such as concatenating chunks of different shapes are outside the model.
- Text.Lower: `str.lower` is modelled on ASCII letters only, because Unicode case mapping is outside the model.
- Config.Upper: `str.upper` is modelled on ASCII letters only, for the same reason.
- `float()` in the config loader is the `parseFloat` parameter.
- The `int` and `bool` conversion branches of the config loader's override loop (sales_coach/src/models/config.py:212-215) are not modelled, because none of the five overrides reaches them.
- Exceptions raised by callbacks are swallowed by the source. The model hands a result to a callback by recording it, so a raising callback is not modelled.
- Time: every `datetime.now()` or `time.time()` is a `now` parameter, a real number of seconds.
- Orchestrator.SalesCoach.InitializeComponents: component calls are recorded as `ComponentCall` events, but the `start_adaptation` call (sales_coach/coach.py:99-100) is not recorded among them.
- The `session_duration` statistic of the orchestrator is never updated by the source and is not modelled.
- Orchestrator.FormatDuration takes the session start time as a parameter rather than reading it from the object.
- The factory functions `create_vad` and `create_diarization_system` always return a system and are not modelled separately. The model-load failure of `create_transcription_system` is the `loaded` flag of `Orchestrator.Loading`.
- The `get_stats` methods of transcription, diarization and coaching, and `get_conversation_summary`, only collect statistics for display and are left out.
- The `except` branch of the ultra-stable coach's keyword engine cannot be reached for a string input (nothing in its `try` raises on one) and is not modelled.
- The integration test's scripted sentences are written as concatenations of literal pieces, because proofs over long string literals are too costly.
- The advice texts of the rule engines are reached through tags (`FinalCoach.Rule`, `UltraStable.Message`, `IntegrationScript.SimpleRule`); the model maps each tag to its text, but proofs speak of the tags.
- The thin driver scripts (fixed_coach.py, run_sales_coach.py, working_coach.py, the debug and test scripts) only wire engines and hardware together and are left out.

## Findings

| source | as written | input that shows it | evidently intended | confidence | as-written member | corrected member |
|---|---|---|---|---|---|---|
| sales_coach/src/audio/diarization.py:199 | `process_voice_segments` passes `self.config.sample_rate` to `diarize_audio`, but its `config` is a `ModelConfig`, which has no `sample_rate` field, so the call raises `AttributeError` | any list with a voice segment that carries audio, e.g. one segment from 0 to 1 s with confidence 1.0 and some audio | diarize the concatenated audio at the audio sample rate and shift the segments by the first voice segment's start | not executed | Diarization.ProcessVoiceSegmentsAsWritten, Diarization.AsWrittenRaisesOnAnyAudio | Diarization.SpeakerDiarization.ProcessVoiceSegments |
