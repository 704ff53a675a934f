/**
 * The crash-resistant driver (`stable_coach.py`): an error counter around the coaching
 * system that replaces the system after three failures in a row, and the transcript
 * filter that decides which recordings become conversation turns.
 *
 * The coaching system itself is not called here: one call to it (`add_conversation_turn`
 * followed by `force_analysis`) is an outcome parameter, and so is the attempt to build a
 * replacement with `create_coaching_system`.
 */
module StableCoach {
  import opened Common
  import opened Conversation
  import Text

  /** `self.max_coaching_errors`. */
  const MaxCoachingErrors: nat := 3

  /** What one call into the coaching system did: it answered (with a response or `None`), or it raised. */
  datatype AnalysisCall = Answered(response: Option<CoachingResponse>) | AnalysisRaised

  /**
   * What `create_coaching_system` did during a restart: it returned a system (`loaded`) or
   * `None` (the model did not load), or it raised.
   */
  datatype Restart = Created(loaded: bool) | RestartRaised

  /** The fields the error handling touches: the counter, whether a system is installed, and how many were installed since start. */
  datatype Breaker = Breaker(errors: nat, hasSystem: bool, restarts: nat)

  /**
   * `_safe_coaching_analysis` on values. With no system installed (`None` after a failed
   * restart) the call raises whatever the system would have done.
   */
  function SafeStep(b: Breaker, call: AnalysisCall, restart: Restart): (Breaker, Option<Advice>)
  {
    var effective := if b.hasSystem then call else AnalysisRaised;
    match effective
    case Answered(Some(response)) => (b.(errors := 0), Some(response.primary))
    case Answered(None) => (b, None)
    case AnalysisRaised =>
      var e := b.errors + 1;
      if e >= MaxCoachingErrors then
        match restart
        case Created(loaded) => (Breaker(0, loaded, b.restarts + 1), None)
        case RestartRaised => (b.(errors := e), None)
      else (b.(errors := e), None)
  }

  /** A response with advice returns that advice and resets the counter. */
  lemma AdviceResets(b: Breaker, response: CoachingResponse, restart: Restart)
    requires b.hasSystem
    ensures SafeStep(b, Answered(Some(response)), restart) == (b.(errors := 0), Some(response.primary))
  {
  }

  /**
   * A failed call never returns advice. It adds one to the counter, unless that reaches
   * the limit and the restart succeeds. Then the counter is 0, the new system is installed
   * if it loaded, and one more restart is counted. A restart that raises leaves the
   * counter at the limit or above.
   */
  lemma FailureCounts(b: Breaker, call: AnalysisCall, restart: Restart)
    requires call == AnalysisRaised || !b.hasSystem
    ensures var (after, advice) := SafeStep(b, call, restart);
      advice.None?
      && (b.errors + 1 < MaxCoachingErrors ==> after == b.(errors := b.errors + 1))
      && (b.errors + 1 >= MaxCoachingErrors && restart.Created? ==> after == Breaker(0, restart.loaded, b.restarts + 1))
      && (b.errors + 1 >= MaxCoachingErrors && restart.RestartRaised? ==> after.errors >= MaxCoachingErrors && after.hasSystem == b.hasSystem)
  {
  }

  /** The counter after a run of calls, each with its restart outcome. */
  function Run(b: Breaker, calls: seq<(AnalysisCall, Restart)>): Breaker
    decreases |calls|
  {
    if calls == [] then b
    else Run(SafeStep(b, calls[0].0, calls[0].1).0, calls[1..])
  }

  /** While every restart builds a system, the counter never reaches the limit. */
  lemma {:induction false} BelowLimitWhileRestartsWork(b: Breaker, calls: seq<(AnalysisCall, Restart)>)
    requires b.errors < MaxCoachingErrors
    requires forall k :: 0 <= k < |calls| ==> calls[k].1.Created?
    ensures Run(b, calls).errors < MaxCoachingErrors
    decreases |calls|
  {
    if calls != [] {
      BelowLimitWhileRestartsWork(SafeStep(b, calls[0].0, calls[0].1).0, calls[1..]);
    }
  }

  /**
   * Every failed call is counted: when all calls fail and all restarts build a system, the
   * counter cycles through the residues of three and one restart happens per three failures.
   */
  lemma {:induction false} FailuresCycle(b: Breaker, calls: seq<(AnalysisCall, Restart)>)
    requires b.errors < MaxCoachingErrors
    requires forall k :: 0 <= k < |calls| ==> calls[k].0 == AnalysisRaised && calls[k].1.Created?
    ensures Run(b, calls).errors == (b.errors + |calls|) % 3
    ensures Run(b, calls).restarts == b.restarts + (b.errors + |calls|) / 3
    decreases |calls|
  {
    if calls != [] {
      var next := SafeStep(b, calls[0].0, calls[0].1).0;
      FailuresCycle(next, calls[1..]);
      if b.errors + 1 < 3 {
        assert next.errors == b.errors + 1 && next.restarts == b.restarts;
      } else {
        assert next.errors == 0 && next.restarts == b.restarts + 1;
        assert b.errors + |calls| == 3 + (|calls| - 1);
      }
    }
  }

  /** When restarts keep raising, the counter counts every failure since the last answer with advice. */
  lemma {:induction false} FailuresAccumulate(b: Breaker, calls: seq<(AnalysisCall, Restart)>)
    requires forall k :: 0 <= k < |calls| ==> calls[k].0 == AnalysisRaised && calls[k].1 == RestartRaised
    ensures Run(b, calls) == b.(errors := b.errors + |calls|)
    decreases |calls|
  {
    if calls != [] {
      FailuresAccumulate(SafeStep(b, calls[0].0, calls[0].1).0, calls[1..]);
    }
  }

  /**
   * The turn `run` builds from a transcription: only a stripped text longer than two
   * characters becomes a turn, spoken by an unknown speaker. Building it raises when the
   * confidence lies outside [0, 1].
   */
  function TurnFromTranscript(text: string, confidence: real, now: real): (r: Option<Result<Turn>>)
    ensures r.Some? <==> |Text.Strip(text)| > 2
    ensures r.Some? ==> (r.value.Ok? <==> UnitInterval(confidence))
    ensures r.Some? && r.value.Ok? ==>
      r.value.value.speaker == Unknown && r.value.value.text == Text.Strip(text)
      && r.value.value.confidence == confidence && r.value.value.timestamp == now
  {
    var stripped := Text.Strip(text);
    if |stripped| > 2 then Some(MakeTurn(Unknown, stripped, now, confidence, None)) else None
  }

  /** Surrounding whitespace does not change which transcripts become turns. */
  lemma TranscriptFilterIgnoresPadding(text: string, confidence: real, now: real)
    ensures TurnFromTranscript(Text.Strip(text), confidence, now) == TurnFromTranscript(text, confidence, now)
  {
    Text.StripIdempotent(text);
  }

  class StableSalesCoach {
    /** `self.coaching_errors`. */
    var coachingErrors: nat
    /** Whether `self.coaching_system` holds a system (it holds `None` after a restart whose model did not load). */
    var hasSystem: bool
    /** How many times the coaching system was replaced. */
    var restarts: nat
    /** `self.turns_processed`. */
    var turnsProcessed: nat
    /** The `run` loop's `successful_transcriptions` and `successful_coaching` tallies. */
    var transcriptions: nat
    var coachingResponses: nat

    /** The state after `__init__`, which exits unless the coaching system loaded. */
    constructor ()
      ensures coachingErrors == 0 && hasSystem && restarts == 0
      ensures turnsProcessed == 0 && transcriptions == 0 && coachingResponses == 0
    {
      coachingErrors := 0;
      hasSystem := true;
      restarts := 0;
      turnsProcessed := 0;
      transcriptions := 0;
      coachingResponses := 0;
    }

    function State(): Breaker
      reads this`coachingErrors, this`hasSystem, this`restarts
    {
      Breaker(coachingErrors, hasSystem, restarts)
    }

    /** `_safe_coaching_analysis`. */
    method SafeCoachingAnalysis(call: AnalysisCall, restart: Restart) returns (advice: Option<Advice>)
      modifies this`coachingErrors, this`hasSystem, this`restarts
      ensures (State(), advice) == SafeStep(old(State()), call, restart)
    {
      var answer := if hasSystem then call else AnalysisRaised;
      if answer.Answered? {
        if answer.response.Some? {
          coachingErrors := 0;
          return Some(answer.response.value.primary);
        }
        return None;
      }
      coachingErrors := coachingErrors + 1;
      if coachingErrors >= MaxCoachingErrors {
        if restart.Created? {
          hasSystem := restart.loaded;
          restarts := restarts + 1;
          coachingErrors := 0;
        }
      }
      return None;
    }

    /**
     * One loud chunk of the `run` loop after transcription: filter the text, build the
     * turn, ask for coaching and count. A turn that fails to build is caught by the loop
     * and nothing else happens.
     */
    method HandleTranscript(text: string, confidence: real, now: real, call: AnalysisCall, restart: Restart)
      returns (advice: Option<Advice>)
      modifies this
      ensures var t := TurnFromTranscript(text, confidence, now);
        && (t.None? ==>
              advice.None? && State() == old(State()) && turnsProcessed == old(turnsProcessed)
              && transcriptions == old(transcriptions) && coachingResponses == old(coachingResponses))
        && (t.Some? ==> transcriptions == old(transcriptions) + 1)
        && (t.Some? && t.value.Raised? ==>
              advice.None? && State() == old(State()) && turnsProcessed == old(turnsProcessed)
              && coachingResponses == old(coachingResponses))
        && (t.Some? && t.value.Ok? ==>
              (State(), advice) == SafeStep(old(State()), call, restart)
              && turnsProcessed == old(turnsProcessed) + 1
              && coachingResponses == old(coachingResponses) + (if advice.Some? then 1 else 0))
    {
      var turn := TurnFromTranscript(text, confidence, now);
      if turn.None? {
        return None;
      }
      transcriptions := transcriptions + 1;
      if turn.value.Raised? {
        return None;
      }
      advice := SafeCoachingAnalysis(call, restart);
      if advice.Some? {
        coachingResponses := coachingResponses + 1;
      }
      turnsProcessed := turnsProcessed + 1;
    }
  }
}
