/**
 * The conversation data model: speakers, stages, coaching categories and
 * priorities, the validated turn and coaching-response records, the running
 * conversation state and the per-speaker profile.
 */
module Conversation {
  import opened Common

  datatype Speaker = SalesRep | Customer | Unknown

  datatype Stage = Discovery | Qualification | SolutionPresentation | ObjectionHandling | Closing | FollowUp

  datatype Category = Questioning | Listening | CategoryObjectionHandling | ValueProposition | CategoryClosing | RapportBuilding

  datatype Priority = High | Medium | Low

  /** The enumeration value each stage is written as. */
  function StageName(s: Stage): string
  {
    match s
    case Discovery => "DISCOVERY"
    case Qualification => "QUALIFICATION"
    case SolutionPresentation => "SOLUTION_PRESENTATION"
    case ObjectionHandling => "OBJECTION_HANDLING"
    case Closing => "CLOSING"
    case FollowUp => "FOLLOW_UP"
  }

  function CategoryName(c: Category): string
  {
    match c
    case Questioning => "QUESTIONING"
    case Listening => "LISTENING"
    case CategoryObjectionHandling => "OBJECTION_HANDLING"
    case ValueProposition => "VALUE_PROPOSITION"
    case CategoryClosing => "CLOSING"
    case RapportBuilding => "RAPPORT_BUILDING"
  }

  function PriorityName(p: Priority): string
  {
    match p
    case High => "HIGH"
    case Medium => "MEDIUM"
    case Low => "LOW"
  }

  /** `ConversationStage(v)`: the stage whose value is `v`, or `None` where the enum raises. */
  function StageOf(v: string): (r: Option<Stage>)
    ensures r.Some? ==> StageName(r.value) == v
    ensures r.None? ==> forall s: Stage :: StageName(s) != v
  {
    if v == "DISCOVERY" then Some(Discovery)
    else if v == "QUALIFICATION" then Some(Qualification)
    else if v == "SOLUTION_PRESENTATION" then Some(SolutionPresentation)
    else if v == "OBJECTION_HANDLING" then Some(ObjectionHandling)
    else if v == "CLOSING" then Some(Closing)
    else if v == "FOLLOW_UP" then Some(FollowUp)
    else None
  }

  /** `CoachingCategory(v)`. */
  function CategoryOf(v: string): (r: Option<Category>)
    ensures r.Some? ==> CategoryName(r.value) == v
    ensures r.None? ==> forall c: Category :: CategoryName(c) != v
  {
    if v == "QUESTIONING" then Some(Questioning)
    else if v == "LISTENING" then Some(Listening)
    else if v == "OBJECTION_HANDLING" then Some(CategoryObjectionHandling)
    else if v == "VALUE_PROPOSITION" then Some(ValueProposition)
    else if v == "CLOSING" then Some(CategoryClosing)
    else if v == "RAPPORT_BUILDING" then Some(RapportBuilding)
    else None
  }

  /** `CoachingPriority(v)`. */
  function PriorityOf(v: string): (r: Option<Priority>)
    ensures r.Some? ==> PriorityName(r.value) == v
    ensures r.None? ==> forall p: Priority :: PriorityName(p) != v
  {
    if v == "HIGH" then Some(High)
    else if v == "MEDIUM" then Some(Medium)
    else if v == "LOW" then Some(Low)
    else None
  }

  /** Every enumeration value reads back as itself. */
  lemma EnumNamesRoundTrip(s: Stage, c: Category, p: Priority)
    ensures StageOf(StageName(s)) == Some(s)
    ensures CategoryOf(CategoryName(c)) == Some(c)
    ensures PriorityOf(PriorityName(p)) == Some(p)
  {
  }

  /** One transcribed turn; `timestamp` is in seconds. */
  datatype Turn = Turn(speaker: Speaker, text: string, timestamp: real, confidence: real, duration: Option<real>)

  /** Building a turn validates its confidence and raises otherwise. */
  function MakeTurn(speaker: Speaker, text: string, timestamp: real, confidence: real, duration: Option<real>): (r: Result<Turn>)
    ensures r.Ok? <==> UnitInterval(confidence)
    ensures r.Ok? ==> r.value == Turn(speaker, text, timestamp, confidence, duration)
  {
    if UnitInterval(confidence) then Ok(Turn(speaker, text, timestamp, confidence, duration))
    else Raised("confidence must lie between 0 and 1")
  }

  datatype Sentiment = Positive | Neutral | Negative

  datatype Engagement = EngagementHigh | EngagementMedium | EngagementLow

  datatype Analysis = Analysis(
    customerConcern: Option<string>,
    salesRepApproach: Option<string>,
    stage: Stage,
    keyTopics: seq<string>,
    sentiment: Option<Sentiment>,
    engagement: Option<Engagement>)

  datatype Advice = Advice(
    priority: Priority,
    category: Category,
    insight: string,
    suggestedAction: string,
    examplePhrase: Option<string>,
    timing: Option<string>)

  datatype CoachingResponse = CoachingResponse(
    analysis: Analysis,
    primary: Advice,
    secondary: Option<Advice>,
    confidence: real,
    contextWindow: int,
    generatedAt: real)

  /** Building a response validates its confidence and raises otherwise. */
  function MakeResponse(analysis: Analysis, primary: Advice, confidence: real, contextWindow: int, generatedAt: real): (r: Result<CoachingResponse>)
    ensures r.Ok? <==> UnitInterval(confidence)
    ensures r.Ok? ==> r.value == CoachingResponse(analysis, primary, None, confidence, contextWindow, generatedAt)
  {
    if UnitInterval(confidence) then Ok(CoachingResponse(analysis, primary, None, confidence, contextWindow, generatedAt))
    else Raised("confidence must lie between 0 and 1")
  }

  /** A turn's duration as the talk-time totals see it: absent counts as nothing. */
  function DurationOf(t: Turn): real
  {
    match t.duration
    case None => 0.0
    case Some(d) => d
  }

  /** The talk time of one speaker over a list of turns. */
  function TalkTime(turns: seq<Turn>, who: Speaker): real
  {
    if turns == [] then 0.0
    else
      var last := turns[|turns| - 1];
      TalkTime(turns[..|turns| - 1], who) + (if last.speaker == who then DurationOf(last) else 0.0)
  }

  /** The talk time of every speaker together. */
  function TotalTalk(turns: seq<Turn>): real
  {
    if turns == [] then 0.0
    else TotalTalk(turns[..|turns| - 1]) + DurationOf(turns[|turns| - 1])
  }

  /** The total splits exactly into the three speakers' shares. */
  lemma {:induction false} TotalIsSumOfSpeakers(turns: seq<Turn>)
    ensures TotalTalk(turns) == TalkTime(turns, SalesRep) + TalkTime(turns, Customer) + TalkTime(turns, Unknown)
  {
    if turns != [] {
      TotalIsSumOfSpeakers(turns[..|turns| - 1]);
    }
  }

  lemma {:induction false} TalkTimeNonNegative(turns: seq<Turn>, who: Speaker)
    requires forall k :: 0 <= k < |turns| ==> DurationOf(turns[k]) >= 0.0
    ensures TalkTime(turns, who) >= 0.0
  {
    if turns != [] {
      TalkTimeNonNegative(turns[..|turns| - 1], who);
    }
  }

  /** With no negative durations the total is at least the representative's and the customer's time together. */
  lemma TotalCoversBothParties(turns: seq<Turn>)
    requires forall k :: 0 <= k < |turns| ==> DurationOf(turns[k]) >= 0.0
    ensures TotalTalk(turns) >= TalkTime(turns, SalesRep) + TalkTime(turns, Customer)
  {
    TotalIsSumOfSpeakers(turns);
    TalkTimeNonNegative(turns, Unknown);
  }

  /** Appending a turn adds its duration to its own speaker's share and to the total. */
  lemma TalkAppend(turns: seq<Turn>, turn: Turn)
    ensures TalkTime(turns + [turn], SalesRep) == TalkTime(turns, SalesRep) + (if turn.speaker == SalesRep then DurationOf(turn) else 0.0)
    ensures TalkTime(turns + [turn], Customer) == TalkTime(turns, Customer) + (if turn.speaker == Customer then DurationOf(turn) else 0.0)
    ensures TotalTalk(turns + [turn]) == TotalTalk(turns) + DurationOf(turn)
  {
    assert (turns + [turn])[..|turns|] == turns;
  }

  /** Python's `l[-count:] if len(l) >= count else l`. */
  function RecentItems<T>(l: seq<T>, count: int): (r: seq<T>)
    ensures |r| <= |l| && r == l[|l| - |r|..]
    ensures 0 < count <= |l| ==> |r| == count
    ensures count == 0 || count > |l| ==> r == l
    ensures count < 0 ==> |r| == if -count <= |l| then |l| + count else 0
  {
    if |l| >= count then
      (if count > 0 then l[|l| - count..] else if -count <= |l| then l[-count..] else [])
    else l
  }

  /** How the representative's talk time compares with the customer's. */
  datatype Ratio = Finite(value: real) | Infinite

  /** The most recent coaching responses kept in the conversation state. */
  const MaxRecentCoaching: nat := 20

  class ConversationState {
    var sessionId: string
    var startedAt: real
    var turns: seq<Turn>
    var currentStage: Stage
    var participantCount: int
    var totalDuration: real
    var salesRepTalkTime: real
    var customerTalkTime: real
    var recentCoaching: seq<CoachingResponse>

    /** The talk-time totals always agree with the turns, and the history stays bounded. */
    ghost predicate Valid()
      reads this
    {
      salesRepTalkTime == TalkTime(turns, SalesRep)
      && customerTalkTime == TalkTime(turns, Customer)
      && totalDuration == TotalTalk(turns)
      && |recentCoaching| <= MaxRecentCoaching
    }

    constructor (sessionId: string, startedAt: real)
      ensures Valid()
      ensures this.sessionId == sessionId && this.startedAt == startedAt
      ensures turns == [] && recentCoaching == [] && currentStage == Discovery && participantCount == 2
      ensures totalDuration == 0.0 && salesRepTalkTime == 0.0 && customerTalkTime == 0.0
    {
      this.sessionId := sessionId;
      this.startedAt := startedAt;
      turns := [];
      currentStage := Discovery;
      participantCount := 2;
      totalDuration := 0.0;
      salesRepTalkTime := 0.0;
      customerTalkTime := 0.0;
      recentCoaching := [];
    }

    /** Appends a turn; only a present, non-zero duration moves the totals. */
    method AddTurn(turn: Turn)
      requires Valid()
      modifies this
      ensures Valid()
      ensures turns == old(turns) + [turn]
      ensures recentCoaching == old(recentCoaching) && currentStage == old(currentStage)
      ensures sessionId == old(sessionId) && startedAt == old(startedAt) && participantCount == old(participantCount)
      ensures turn.duration.None? || turn.duration.value == 0.0 ==>
        totalDuration == old(totalDuration) && salesRepTalkTime == old(salesRepTalkTime) && customerTalkTime == old(customerTalkTime)
      ensures turn.duration.Some? ==> totalDuration == old(totalDuration) + turn.duration.value
      ensures turn.duration.Some? && turn.speaker == SalesRep ==> salesRepTalkTime == old(salesRepTalkTime) + turn.duration.value
      ensures turn.duration.Some? && turn.speaker == Customer ==> customerTalkTime == old(customerTalkTime) + turn.duration.value
      ensures turn.speaker != SalesRep ==> salesRepTalkTime == old(salesRepTalkTime)
      ensures turn.speaker != Customer ==> customerTalkTime == old(customerTalkTime)
    {
      ghost var before := turns;
      turns := turns + [turn];
      TalkAppend(before, turn);
      if turn.duration.Some? && turn.duration.value != 0.0 {
        var d := turn.duration.value;
        if turn.speaker == SalesRep {
          salesRepTalkTime := salesRepTalkTime + d;
        } else if turn.speaker == Customer {
          customerTalkTime := customerTalkTime + d;
        }
        totalDuration := totalDuration + d;
      }
    }

    /** `get_recent_turns(count)`. */
    function RecentTurns(count: int): (r: seq<Turn>)
      reads this
      ensures |r| <= |turns| && r == turns[|turns| - |r|..]
      ensures 0 < count <= |turns| ==> |r| == count
      ensures count == 0 || count > |turns| ==> r == turns
    {
      RecentItems(turns, count)
    }

    /** Representative time over customer time; infinite when only the representative spoke. */
    function TalkRatio(): (r: Ratio)
      reads this
      ensures r.Infinite? <==> customerTalkTime == 0.0 && salesRepTalkTime > 0.0
      ensures r.Finite? && customerTalkTime != 0.0 ==> r.value * customerTalkTime == salesRepTalkTime
      ensures r.Finite? && customerTalkTime == 0.0 ==> r.value == 0.0
    {
      if customerTalkTime == 0.0 then (if salesRepTalkTime > 0.0 then Infinite else Finite(0.0))
      else Finite(salesRepTalkTime / customerTalkTime)
    }

    /** Appends a coaching response, evicting the oldest beyond twenty. */
    method AddCoaching(coaching: CoachingResponse)
      requires Valid()
      modifies this
      ensures Valid()
      ensures recentCoaching == LastN(old(recentCoaching) + [coaching], MaxRecentCoaching)
      ensures recentCoaching[|recentCoaching| - 1] == coaching
      ensures turns == old(turns) && totalDuration == old(totalDuration)
      ensures salesRepTalkTime == old(salesRepTalkTime) && customerTalkTime == old(customerTalkTime)
      ensures sessionId == old(sessionId) && startedAt == old(startedAt)
      ensures currentStage == old(currentStage) && participantCount == old(participantCount)
    {
      recentCoaching := recentCoaching + [coaching];
      if |recentCoaching| > MaxRecentCoaching {
        recentCoaching := recentCoaching[|recentCoaching| - MaxRecentCoaching..];
      }
    }
  }

  /** Keeping the last twenty after each append loses only the oldest entries. */
  lemma {:induction false} LastNAppend<T>(s: seq<T>, x: T, n: nat)
    requires n > 0
    ensures LastN(s + [x], n) == LastN(s, n - 1) + [x]
  {
    if |s| + 1 > n {
      assert (s + [x])[|s| + 1 - n..] == s[|s| - (n - 1)..] + [x];
    } else {
      assert LastN(s, n - 1) == s;
    }
  }

  /** `min(0.95, samples * 0.1)`: the confidence a profile has after `samples` updates. */
  function ProfileConfidence(samples: int): (r: real)
    ensures samples >= 0 ==> 0.0 <= r <= 0.95
    ensures r == 0.95 <==> samples >= 10
    ensures samples < 10 ==> r == samples as real / 10.0
  {
    Min(0.95, samples as real * 0.1)
  }

  /** The statistics kept in a profile's dictionaries, named after their keys ("total_duration", ...). */
  datatype ProfileKey = TotalDuration | AverageSegmentLength | SegmentsCount

  class SpeakerProfile {
    var speaker: Speaker
    /** Numeric voice characteristics (the diarizer keeps a speaker's total talk time here). */
    var voiceCharacteristics: map<ProfileKey, real>
    /** Numeric speaking patterns (the diarizer keeps segment count and mean length here). */
    var speakingPatterns: map<ProfileKey, real>
    var confidence: real
    var samplesAnalyzed: int
    var lastUpdated: real

    ghost predicate Valid()
      reads this
    {
      samplesAnalyzed >= 0 && UnitInterval(confidence)
    }

    constructor (speaker: Speaker, voiceCharacteristics: map<ProfileKey, real>, speakingPatterns: map<ProfileKey, real>, now: real)
      ensures Valid()
      ensures this.speaker == speaker && this.voiceCharacteristics == voiceCharacteristics
      ensures this.speakingPatterns == speakingPatterns
      ensures confidence == 0.0 && samplesAnalyzed == 0 && lastUpdated == now
    {
      this.speaker := speaker;
      this.voiceCharacteristics := voiceCharacteristics;
      this.speakingPatterns := speakingPatterns;
      confidence := 0.0;
      samplesAnalyzed := 0;
      lastUpdated := now;
    }

    /** One more sample; confidence grows by a tenth per sample up to 0.95. */
    method UpdateProfile(now: real)
      requires Valid()
      modifies this
      ensures Valid()
      ensures samplesAnalyzed == old(samplesAnalyzed) + 1
      ensures confidence == ProfileConfidence(samplesAnalyzed)
      ensures lastUpdated == now
      ensures speaker == old(speaker) && voiceCharacteristics == old(voiceCharacteristics)
      ensures speakingPatterns == old(speakingPatterns)
    {
      samplesAnalyzed := samplesAnalyzed + 1;
      lastUpdated := now;
      confidence := ProfileConfidence(samplesAnalyzed);
    }
  }
}
