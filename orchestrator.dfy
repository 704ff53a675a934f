/**
 * The orchestrator's bookkeeping (`SalesCoach` in `sales_coach/coach.py`): the bounded
 * lists of recent turns and recent advice, the statistics counters, the start/stop flags,
 * and the session clock shown as HH:MM:SS.
 *
 * The components (capture, voice detection, diarization, transcription, coaching) are not
 * modelled here; the orchestrator only records which of them exist and, in `calls`, the
 * calls it makes into them, in order. What a component returns is a parameter.
 */
module Orchestrator {
  import opened Common
  import opened Conversation

  /** `_handle_conversation_turn` keeps this many turns. */
  const RecentTurnLimit: nat := 20
  /** `_handle_coaching_response` keeps this many responses. */
  const RecentCoachingLimit: nat := 10

  /** A call from the orchestrator into one of its components. */
  datatype ComponentCall =
    | Diarize(timestamp: real)
    | Transcribe(voiceSegments: nat)
    | ForwardTurn(turn: Turn)
    | StartCapture
    | StartTranscription
    | StartAnalysis
    | StopCapture
    | StopTranscription
    | StopAnalysis
    | StopAdaptation

  /** Whether the two factories that can return `None` produced a system. */
  datatype Loading = Loading(transcriptionLoaded: bool, coachingLoaded: bool)

  /** Keeping the last `n` after every append keeps the last `n` of the whole history. */
  lemma {:induction false} WindowOfWindow<T>(s: seq<T>, x: T, n: nat)
    ensures LastN(LastN(s, n) + [x], n) == LastN(s + [x], n)
  {
    var w := LastN(s, n);
    if |s| > n {
      assert |w| == n;
      if n > 0 {
        calc {
          LastN(w + [x], n);
          (w + [x])[1..];
          { assert w == s[|s| - n..]; }
          s[|s| - n + 1..] + [x];
          (s + [x])[|s| + 1 - n..];
        }
      }
    }
  }

  // ----- The HH:MM:SS clock -----

  /** Python's `int(x)` on a float: truncation toward zero. */
  function Truncate(x: real): (r: int)
    ensures x >= 0.0 ==> r >= 0 && r as real <= x < r as real + 1.0
    ensures x < 0.0 ==> r as real - 1.0 < x <= r as real
  {
    if x >= 0.0 then x.Floor else -((-x).Floor)
  }

  function DigitChar(d: nat): char
    requires d < 10
  {
    "0123456789"[d]
  }

  /** The decimal numeral of `n`, without leading zeros. */
  function Digits(n: nat): (r: string)
    ensures n < 10 <==> |r| == 1
    ensures n < 100 ==> |r| <= 2
  {
    if n < 10 then [DigitChar(n)] else Digits(n / 10) + [DigitChar(n % 10)]
  }

  /** Python's `f"{n:02d}"`: at least two characters, zero-padded after the sign. */
  function Pad2(n: int): (r: string)
    ensures n >= 0 ==> |r| >= 2
    ensures 0 <= n < 100 ==> |r| == 2
  {
    if n < 0 then "-" + Digits(-n)
    else if n < 10 then "0" + Digits(n)
    else Digits(n)
  }

  /** `hours:minutes:seconds` of a whole number of seconds, by floor division as Python's `divmod` does. */
  function Clock(secs: int): string
  {
    Pad2(secs / 3600) + ":" + Pad2(secs % 3600 / 60) + ":" + Pad2(secs % 3600 % 60)
  }

  /** The value of a numeral, or `None` when it is empty or holds a non-digit. */
  function ParseNat(s: string): (r: Option<nat>)
  {
    if s == [] || !('0' <= s[|s| - 1] <= '9') then None
    else
      var last := (s[|s| - 1] as int - '0' as int) as nat;
      if |s| == 1 then Some(last)
      else match ParseNat(s[..|s| - 1])
        case None => None
        case Some(v) => Some(v * 10 + last)
  }

  /** Reads `H:MM:SS` back (the hours may have any number of digits). */
  function ParseClock(t: string): (r: Option<nat>)
  {
    if |t| < 7 || t[|t| - 6] != ':' || t[|t| - 3] != ':' then None
    else ParseFields(t[..|t| - 6], t[|t| - 5..|t| - 3], t[|t| - 2..])
  }

  function ParseFields(hours: string, minutes: string, seconds: string): (r: Option<nat>)
  {
    match (ParseNat(hours), ParseNat(minutes), ParseNat(seconds))
    case (Some(h), Some(m), Some(s)) => Some(h * 3600 + m * 60 + s)
    case _ => None
  }

  lemma {:induction false} ParseDigits(n: nat)
    ensures ParseNat(Digits(n)) == Some(n)
  {
    if n >= 10 {
      ParseDigits(n / 10);
      var d := Digits(n);
      assert d[..|d| - 1] == Digits(n / 10);
    }
  }

  /** A leading zero does not change a numeral's value. */
  lemma {:induction false} ParseLeadingZero(s: string)
    requires ParseNat(s).Some?
    ensures ParseNat("0" + s) == ParseNat(s)
  {
    if |s| > 1 {
      ParseLeadingZero(s[..|s| - 1]);
      assert ("0" + s)[..|"0" + s| - 1] == "0" + s[..|s| - 1];
    }
  }

  lemma ParsePad2(n: nat)
    ensures ParseNat(Pad2(n)) == Some(n)
  {
    ParseDigits(n);
    if n < 10 {
      ParseLeadingZero(Digits(n));
    }
  }

  /** A clock string is cut at its last two colons. */
  lemma ClockSplit(a: string, b: string, c: string)
    requires |b| == 2 && |c| == 2
    ensures ParseClock(a + ":" + b + ":" + c) == ParseFields(a, b, c)
  {
    var t := a + ":" + b + ":" + c;
    assert t[|a|] == ':' && t[|a| + 3] == ':';
    assert t[..|a|] == a;
    assert t[|a| + 1..|a| + 3] == b;
    assert t[|a| + 4..] == c;
  }

  /**
   * The clock reads back as the seconds it shows: minutes and seconds take two digits each,
   * so every non-negative duration survives `Clock` followed by `ParseClock`.
   */
  lemma ClockRoundTrip(secs: nat)
    ensures ParseClock(Clock(secs)) == Some(secs)
  {
    var h, m, s := secs / 3600, secs % 3600 / 60, secs % 3600 % 60;
    ClockFields(secs);
    ParsePad2(h);
    ParsePad2(m);
    ParsePad2(s);
    ClockSplit(Pad2(h), Pad2(m), Pad2(s));
  }

  /** The minutes and seconds fields stay within [0, 59], and the shown seconds add up to the duration. */
  lemma ClockFields(secs: int)
    ensures 0 <= secs % 3600 / 60 < 60 && 0 <= secs % 3600 % 60 < 60
    ensures (secs / 3600) * 3600 + (secs % 3600 / 60) * 60 + secs % 3600 % 60 == secs
  {
  }

  class SalesCoach {
    /** `recent_turns`, `recent_coaching` and `current_advice`. */
    var recentTurns: seq<Turn>
    var recentCoaching: seq<CoachingResponse>
    var currentAdvice: Option<CoachingResponse>
    /** Every turn and every response received since construction. */
    ghost var turnHistory: seq<Turn>
    ghost var coachingHistory: seq<CoachingResponse>
    /** The `stats` counters. */
    var totalTurns: nat
    var coachingEvents: nat
    var audioChunksProcessed: nat
    /** `is_running` and `session_start_time`. */
    var isRunning: bool
    var sessionStart: Option<real>
    /** Which components are present (not `None`). */
    var hasCapture: bool
    var hasVad: bool
    var hasDiarization: bool
    var hasTranscription: bool
    var hasCoaching: bool
    /** The calls made into components, oldest first. */
    var calls: seq<ComponentCall>

    /** The lists are the tails of the histories and the counters count the histories. */
    ghost predicate Valid()
      reads this
    {
      recentTurns == LastN(turnHistory, RecentTurnLimit) && totalTurns == |turnHistory|
      && recentCoaching == LastN(coachingHistory, RecentCoachingLimit) && coachingEvents == |coachingHistory|
      && currentAdvice == (if coachingHistory == [] then None else Some(coachingHistory[|coachingHistory| - 1]))
    }

    /** `__init__`: nothing loaded, nothing running, every counter at zero. */
    constructor ()
      ensures Valid()
      ensures recentTurns == [] && recentCoaching == [] && currentAdvice.None?
      ensures totalTurns == 0 && coachingEvents == 0 && audioChunksProcessed == 0
      ensures !isRunning && sessionStart.None? && calls == []
      ensures !hasCapture && !hasVad && !hasDiarization && !hasTranscription && !hasCoaching
    {
      recentTurns := [];
      recentCoaching := [];
      currentAdvice := None;
      turnHistory := [];
      coachingHistory := [];
      totalTurns := 0;
      coachingEvents := 0;
      audioChunksProcessed := 0;
      isRunning := false;
      sessionStart := None;
      hasCapture := false;
      hasVad := false;
      hasDiarization := false;
      hasTranscription := false;
      hasCoaching := false;
      calls := [];
    }

    /**
     * `_handle_audio_chunk`, given how many voice segments the detector returned. Without a
     * detector nothing happens; otherwise the chunk is counted, and only voice with a
     * diarization system present goes on to diarization and transcription.
     */
    method HandleAudioChunk(now: real, voiceSegments: nat)
      modifies this`audioChunksProcessed, this`calls
      ensures !hasVad ==> audioChunksProcessed == old(audioChunksProcessed) && calls == old(calls)
      ensures hasVad ==> audioChunksProcessed == old(audioChunksProcessed) + 1
      ensures hasVad ==>
        calls == old(calls)
        + (if voiceSegments > 0 && hasDiarization then [Diarize(now)] else [])
        + (if voiceSegments > 0 && hasDiarization && hasTranscription then [Transcribe(voiceSegments)] else [])
    {
      if !hasVad {
        return;
      }
      audioChunksProcessed := audioChunksProcessed + 1;
      if voiceSegments > 0 && hasDiarization {
        calls := calls + [Diarize(now)];
        if hasTranscription {
          calls := calls + [Transcribe(voiceSegments)];
        }
      }
    }

    /** `_handle_conversation_turn`: keep the last twenty turns, count the turn, forward it once. */
    method HandleConversationTurn(turn: Turn)
      requires Valid()
      modifies this`recentTurns, this`turnHistory, this`totalTurns, this`calls
      ensures Valid()
      ensures turnHistory == old(turnHistory) + [turn]
      ensures recentTurns == LastN(old(recentTurns) + [turn], RecentTurnLimit)
      ensures |recentTurns| <= RecentTurnLimit && recentTurns[|recentTurns| - 1] == turn
      ensures totalTurns == old(totalTurns) + 1
      ensures calls == old(calls) + (if hasCoaching then [ForwardTurn(turn)] else [])
    {
      var window := LastN(recentTurns + [turn], RecentTurnLimit);
      WindowOfWindow(turnHistory, turn, RecentTurnLimit);
      assert window[|window| - 1] == turn;
      var forwarded := if hasCoaching then [ForwardTurn(turn)] else [];
      recentTurns, turnHistory, totalTurns, calls := window, turnHistory + [turn], totalTurns + 1, calls + forwarded;
    }

    /** `_handle_coaching_response`: keep the last ten responses, show the newest, count it. */
    method HandleCoachingResponse(coaching: CoachingResponse)
      requires Valid()
      modifies this`recentCoaching, this`coachingHistory, this`currentAdvice, this`coachingEvents
      ensures Valid()
      ensures coachingHistory == old(coachingHistory) + [coaching]
      ensures recentCoaching == LastN(old(recentCoaching) + [coaching], RecentCoachingLimit)
      ensures |recentCoaching| <= RecentCoachingLimit && recentCoaching[|recentCoaching| - 1] == coaching
      ensures currentAdvice == Some(coaching)
      ensures coachingEvents == old(coachingEvents) + 1
    {
      WindowOfWindow(coachingHistory, coaching, RecentCoachingLimit);
      recentCoaching := LastN(recentCoaching + [coaching], RecentCoachingLimit);
      assert recentCoaching[|recentCoaching| - 1] == coaching;
      coachingHistory := coachingHistory + [coaching];
      currentAdvice := Some(coaching);
      coachingEvents := coachingEvents + 1;
    }

    /**
     * `initialize_components`. Capture, detection and diarization always come up; a
     * transcription or coaching factory that returns `None` aborts the rest, and what was
     * set before stays set.
     */
    method InitializeComponents(loading: Loading) returns (ok: bool)
      modifies this`hasCapture, this`hasVad, this`hasDiarization, this`hasTranscription, this`hasCoaching
      ensures ok <==> loading.transcriptionLoaded && loading.coachingLoaded
      ensures hasCapture && hasVad && hasDiarization
      ensures hasTranscription == loading.transcriptionLoaded
      ensures hasCoaching == (loading.transcriptionLoaded && loading.coachingLoaded)
        || (!loading.transcriptionLoaded && old(hasCoaching))
    {
      hasCapture := true;
      hasVad := true;
      hasDiarization := true;
      hasTranscription := loading.transcriptionLoaded;
      if !loading.transcriptionLoaded {
        return false;
      }
      hasCoaching := loading.coachingLoaded;
      return loading.coachingLoaded;
    }

    /**
     * `start`. A running coach answers true and changes nothing. Components are loaded
     * only when there is no capture system yet, so after a failed load a second `start`
     * skips loading and runs with what is there. The capture is started first; if it does
     * not start, `start` fails. Then transcription and analysis are started when present.
     */
    method Start(loading: Loading, captureStarts: bool, now: real) returns (ok: bool)
      modifies this`hasCapture, this`hasVad, this`hasDiarization, this`hasTranscription, this`hasCoaching
      modifies this`calls, this`isRunning, this`sessionStart
      ensures old(isRunning) ==> ok && isRunning && calls == old(calls) && sessionStart == old(sessionStart)
      ensures old(isRunning) || old(hasCapture) ==>
        hasCapture == old(hasCapture) && hasTranscription == old(hasTranscription) && hasCoaching == old(hasCoaching)
      ensures !old(isRunning) && !old(hasCapture) && !(loading.transcriptionLoaded && loading.coachingLoaded) ==>
        !ok && !isRunning && calls == old(calls)
      ensures ok <==>
        old(isRunning) || ((old(hasCapture) || (loading.transcriptionLoaded && loading.coachingLoaded)) && captureStarts)
      ensures !old(isRunning) && ok ==>
        isRunning && sessionStart == Some(now)
        && calls == old(calls) + [StartCapture]
          + (if hasTranscription then [StartTranscription] else [])
          + (if hasCoaching then [StartAnalysis] else [])
      ensures !ok ==> isRunning == old(isRunning) && sessionStart == old(sessionStart)
    {
      if isRunning {
        return true;
      }
      if !hasCapture {
        var loaded := InitializeComponents(loading);
        if !loaded {
          return false;
        }
      }
      calls := calls + [StartCapture];
      if !captureStarts {
        return false;
      }
      if hasTranscription {
        calls := calls + [StartTranscription];
      }
      if hasCoaching {
        calls := calls + [StartAnalysis];
      }
      isRunning := true;
      sessionStart := Some(now);
      return true;
    }

    /**
     * `stop`: nothing when not running; otherwise stop capture, transcription, analysis and
     * detector adaptation, in that order and each only when present, and clear the flag.
     */
    method Stop()
      modifies this`calls, this`isRunning
      ensures !isRunning
      ensures !old(isRunning) ==> calls == old(calls)
      ensures old(isRunning) ==>
        calls == old(calls)
          + (if hasCapture then [StopCapture] else [])
          + (if hasTranscription then [StopTranscription] else [])
          + (if hasCoaching then [StopAnalysis] else [])
          + (if hasVad then [StopAdaptation] else [])
    {
      if !isRunning {
        return;
      }
      if hasCapture {
        calls := calls + [StopCapture];
      }
      if hasTranscription {
        calls := calls + [StopTranscription];
      }
      if hasCoaching {
        calls := calls + [StopAnalysis];
      }
      if hasVad {
        calls := calls + [StopAdaptation];
      }
      isRunning := false;
    }
  }

  /** The clock of a coach that never started reads zero. */
  lemma ZeroClock()
    ensures Clock(0) == "00:00:00" && ParseClock("00:00:00") == Some(0)
  {
    ClockRoundTrip(0);
    assert Pad2(0) == "00";
  }

  /**
   * `_format_duration`, given the session's start time and the clock reading `now`: before a
   * start it reads zero seconds, and after it the whole seconds elapsed, cut toward zero.
   */
  function FormatDuration(sessionStart: Option<real>, now: real): (r: string)
    ensures sessionStart.None? ==> r == "00:00:00" && ParseClock(r) == Some(0)
    ensures sessionStart.Some? ==> ShowsElapsed(r, sessionStart.value, now)
  {
    if sessionStart.None? then
      ZeroClock();
      "00:00:00"
    else
      ElapsedClock(sessionStart.value, now);
      Clock(Truncate(now - sessionStart.value))
  }

  /** After the start, `r` reads back as the whole seconds elapsed, cut toward zero. */
  predicate ShowsElapsed(r: string, start: real, now: real)
  {
    now >= start ==>
      var secs := Truncate(now - start);
      secs >= 0 && ParseClock(r) == Some(secs) && |r| >= 8 && secs as real <= now - start < secs as real + 1.0
  }

  lemma ElapsedClock(start: real, now: real)
    ensures ShowsElapsed(Clock(Truncate(now - start)), start, now)
  {
    if now >= start {
      ClockRoundTrip(Truncate(now - start));
    }
  }
}
