/**
 * The rule engine of the ultra-stable driver (`_safe_coaching_with_isolation` in
 * `ultra_stable_coach.py`): eight keywords tried in a fixed order, then a word-count rule,
 * then a question rule, then a default. The confidence passes through unchanged.
 *
 * Each advice message is named by a tag (`Message`); `MessageText` gives its text.
 */
module UltraStable {
  import opened Common
  import opened Conversation
  import Text

  /** The keys of `advice_map`, in the order the dictionary lists them. */
  datatype Keyword = PriceKey | CostKey | ProblemKey | SolutionKey | WhenKey | BudgetKey | TeamKey | DecideKey

  const Keywords: seq<Keyword> := [PriceKey, CostKey, ProblemKey, SolutionKey, WhenKey, BudgetKey, TeamKey, DecideKey]

  /** The substring each keyword looks for. */
  function KeywordText(k: Keyword): string
  {
    match k
    case PriceKey => "price"
    case CostKey => "cost"
    case ProblemKey => "problem"
    case SolutionKey => "solution"
    case WhenKey => "when"
    case BudgetKey => "budget"
    case TeamKey => "team"
    case DecideKey => "decide"
  }

  /** The result's `category` value. */
  datatype UltraCategory = KeywordBased | UltraListening | QuestionHandling | Engagement

  function UltraCategoryName(c: UltraCategory): string
  {
    match c
    case KeywordBased => "KEYWORD_BASED"
    case UltraListening => "LISTENING"
    case QuestionHandling => "QUESTION_HANDLING"
    case Engagement => "ENGAGEMENT"
  }

  /** The advice messages: one per keyword, and one for each fallback rule. */
  datatype Message = KeywordMessage(key: Keyword) | ActiveListening | QuestionResponse | KeepEngaging

  function MessageText(m: Message): string
  {
    match m
    case KeywordMessage(PriceKey) => "💰 PRICING: Focus on value proposition rather than just cost"
    case KeywordMessage(CostKey) => "💰 PRICING: Emphasize ROI and long-term benefits"
    case KeywordMessage(ProblemKey) => "🎯 NEEDS_ANALYSIS: Dig deeper into the root cause of their challenges"
    case KeywordMessage(SolutionKey) => "💡 SOLUTION_FOCUS: Connect your solution directly to their stated needs"
    case KeywordMessage(WhenKey) => "⏰ TIMELINE: Understand their urgency and decision-making process"
    case KeywordMessage(BudgetKey) => "💰 BUDGET: Qualify their investment capacity and decision authority"
    case KeywordMessage(TeamKey) => "👥 STAKEHOLDERS: Identify all decision makers and influencers"
    case KeywordMessage(DecideKey) => "🔄 DECISION_PROCESS: Map out their evaluation and approval process"
    case ActiveListening => "🎧 ACTIVE_LISTENING: Customer is sharing detailed information - take notes and ask follow-up questions"
    case QuestionResponse => "❓ QUESTION_RESPONSE: Customer has a question - address it directly and confirm understanding"
    case KeepEngaging => "🗣️  ENGAGEMENT: Acknowledge what the customer said and keep the conversation flowing"
  }

  /** The dictionary the engine returns. */
  datatype UltraAdvice = UltraAdvice(category: UltraCategory, priority: Priority, message: Message, confidence: real)

  /** More than this many words makes the speaker "sharing detailed information". */
  const DetailWords: nat := 15

  /** The index of the first keyword, in dictionary order, found in the lowercased text. */
  function FirstKeyword(lowered: string, keys: seq<Keyword>): (r: Option<nat>)
    ensures r.Some? ==> r.value < |keys| && Text.Contains(lowered, KeywordText(keys[r.value]))
    ensures r.Some? ==> forall j :: 0 <= j < r.value ==> !Text.Contains(lowered, KeywordText(keys[j]))
    ensures r.None? <==> forall j :: 0 <= j < |keys| ==> !Text.Contains(lowered, KeywordText(keys[j]))
  {
    if keys == [] then None
    else if Text.Contains(lowered, KeywordText(keys[0])) then Some(0)
    else
      var rest := FirstKeyword(lowered, keys[1..]);
      assert forall j :: 1 <= j < |keys| ==> keys[j] == keys[1..][j - 1];
      if rest.Some? then Some(rest.value + 1) else None
  }

  /** `_safe_coaching_with_isolation`. */
  function UltraCoaching(text: string, confidence: real): (r: UltraAdvice)
    ensures r.confidence == confidence
  {
    match FirstKeyword(Text.Lower(text), Keywords)
    case Some(i) => UltraAdvice(KeywordBased, Medium, KeywordMessage(Keywords[i]), confidence)
    case None =>
      if Text.WordCount(text) > DetailWords then UltraAdvice(UltraListening, High, ActiveListening, confidence)
      else if Text.Contains(text, "?") then UltraAdvice(QuestionHandling, High, QuestionResponse, confidence)
      else UltraAdvice(Engagement, Low, KeepEngaging, confidence)
  }

  /** A keyword anywhere in the lowercased text gives the first such keyword's advice, at medium priority. */
  lemma KeywordRuleFirst(text: string, confidence: real)
    ensures var r := UltraCoaching(text, confidence);
      (r.category == KeywordBased <==> exists j :: 0 <= j < |Keywords| && Text.Contains(Text.Lower(text), KeywordText(Keywords[j])))
      && (r.category == KeywordBased ==>
            r.priority == Medium && r.message.KeywordMessage?
            && Text.Contains(Text.Lower(text), KeywordText(r.message.key))
            && forall j :: 0 <= j < |Keywords| && Keywords[j] == r.message.key ==>
                 forall i :: 0 <= i < j ==> !Text.Contains(Text.Lower(text), KeywordText(Keywords[i])))
  {
    var r := UltraCoaching(text, confidence);
    var m := FirstKeyword(Text.Lower(text), Keywords);
    if m.Some? {
      assert r.message.key == Keywords[m.value];
      forall j | 0 <= j < |Keywords| && Keywords[j] == r.message.key
        ensures forall i :: 0 <= i < j ==> !Text.Contains(Text.Lower(text), KeywordText(Keywords[i]))
      {
        KeywordsDistinct(j, m.value);
      }
    }
  }

  lemma KeywordsDistinct(i: nat, j: nat)
    requires i < |Keywords| && j < |Keywords| && Keywords[i] == Keywords[j]
    ensures i == j
  {
  }

  /** The dictionary's order decides, not the text's: "price" beats "cost" wherever the two appear. */
  lemma PriceBeforeCost(text: string, confidence: real)
    requires Text.Contains(Text.Lower(text), "price")
    ensures UltraCoaching(text, confidence) == UltraAdvice(KeywordBased, Medium, KeywordMessage(PriceKey), confidence)
  {
  }

  /**
   * Without a keyword the fallbacks apply in order: more than fifteen words is listening
   * (even for a question), else a '?' is a question, else engagement.
   */
  lemma FallbackRules(text: string, confidence: real)
    requires forall j :: 0 <= j < |Keywords| ==> !Text.Contains(Text.Lower(text), KeywordText(Keywords[j]))
    ensures var r := UltraCoaching(text, confidence);
      (Text.WordCount(text) > DetailWords ==> r.category == UltraListening && r.priority == High && r.message == ActiveListening)
      && (Text.WordCount(text) <= DetailWords && Text.Contains(text, "?") ==>
            r.category == QuestionHandling && r.priority == High && r.message == QuestionResponse)
      && (Text.WordCount(text) <= DetailWords && !Text.Contains(text, "?") ==>
            r.category == Engagement && r.priority == Low && r.message == KeepEngaging)
  {
    assert FirstKeyword(Text.Lower(text), Keywords).None?;
  }
}
