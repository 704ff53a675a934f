/**
 * The standalone integrated coach: its ordered keyword rule engine, the breaker
 * that stops trying the language model after three failures, and the filter
 * that lets only transcripts of more than two characters reach coaching.
 *
 * The isolated language-model attempt is an outcome parameter: the advice it
 * produced, or `None` for any failure.
 */
module FinalCoach {
  import opened Common
  import opened Conversation
  import Text

  /** One advice dictionary with its four keys, as the rule engine and the isolated model return it. */
  datatype RuleAdvice = RuleAdvice(priority: Priority, category: Category, insight: string, suggestedAction: string)

  /**
   * Where an advice came from: the model's dictionary, or the rule of the engine that
   * answered, whose dictionary is `AdviceFor(rule)`.
   */
  datatype Coaching = FromLlm(advice: RuleAdvice) | FromRules(rule: Rule)
  {
    function Dict(): RuleAdvice
    {
      match this
      case FromLlm(a) => a
      case FromRules(r) => AdviceFor(r)
    }
  }

  const PriceWords: seq<string> := ["price", "cost", "expensive", "budget", "money"]
  const ProblemWords: seq<string> := ["problem", "challenge", "issue", "difficult"]
  const SolutionWords: seq<string> := ["solution", "help", "solve", "fix"]
  const GreetingWords: seq<string> := ["hello", "hi", "thanks", "thank"]

  /** `any(word in t for word in words)`. */
  predicate AnyIn(t: string, words: seq<string>)
  {
    words != [] && (Text.Contains(t, words[0]) || AnyIn(t, words[1..]))
  }

  /**
   * `_rule_based_coaching`: the branch of the if/elif chain that answers, the first whose
   * condition holds; it returns that branch's dictionary `AdviceFor(r)`. The confidence
   * plays no part.
   */
  function RuleBasedCoaching(text: string, confidence: real): Rule
  {
    if Fires(PriceRule, text) then PriceRule
    else if Fires(ProblemRule, text) then ProblemRule
    else if Fires(QuestionRule, text) then QuestionRule
    else if Fires(SolutionRule, text) then SolutionRule
    else if Fires(DetailRule, text) then DetailRule
    else if Fires(GreetingRule, text) then GreetingRule
    else DefaultRule
  }

  /** The dictionary each branch returns. */
  function AdviceFor(r: Rule): RuleAdvice
  {
    match r
    case PriceRule =>
      RuleAdvice(High, CategoryObjectionHandling, "Customer is expressing price concerns",
        "Focus on value and ROI rather than just price. Ask about their cost of not solving the problem.")
    case ProblemRule =>
      RuleAdvice(High, Questioning, "Customer is sharing pain points - perfect discovery opportunity",
        "Ask follow-up questions to quantify the impact and urgency of their challenges.")
    case QuestionRule =>
      RuleAdvice(High, Questioning, "Customer is asking questions - shows engagement",
        "Answer clearly and then ask a follow-up question to maintain dialogue.")
    case SolutionRule =>
      RuleAdvice(Medium, ValueProposition, "Good opportunity to present your solution",
        "Connect your solution features directly to their specific needs and pain points.")
    case DetailRule =>
      RuleAdvice(Medium, Listening, "Customer is sharing detailed information",
        "Listen actively, take notes, and summarize key points to show understanding.")
    case GreetingRule =>
      RuleAdvice(Low, RapportBuilding, "Good rapport-building opportunity",
        "Acknowledge their time and transition smoothly into discovery questions.")
    case DefaultRule =>
      RuleAdvice(Low, Listening, "Continue gathering information",
        "Keep the conversation flowing with open-ended questions and active listening.")
  }

  // ---------------------------------------------------------------------------
  // The same engine as a table of rules tried in order
  // ---------------------------------------------------------------------------

  datatype Rule = PriceRule | ProblemRule | QuestionRule | SolutionRule | DetailRule | GreetingRule | DefaultRule

  /** The rules in the order they are tried. */
  const RuleOrder: seq<Rule> := [PriceRule, ProblemRule, QuestionRule, SolutionRule, DetailRule, GreetingRule, DefaultRule]

  /**
   * The condition of each rule on its own: keywords are looked up in the lowercased text,
   * the question mark and the word count in the text as it is.
   */
  predicate Fires(r: Rule, text: string)
  {
    match r
    case PriceRule => AnyIn(Text.Lower(text), PriceWords)
    case ProblemRule => AnyIn(Text.Lower(text), ProblemWords)
    case QuestionRule => Text.Contains(text, "?")
    case SolutionRule => AnyIn(Text.Lower(text), SolutionWords)
    case DetailRule => Text.WordCount(text) > 20
    case GreetingRule => AnyIn(Text.Lower(text), GreetingWords)
    case DefaultRule => true
  }

  /** The position in `rules` of the first rule that fires, if any does. */
  function FirstFiring(text: string, rules: seq<Rule>): (i: Option<nat>)
    ensures i.Some? ==> i.value < |rules| && Fires(rules[i.value], text)
    ensures i.Some? ==> forall j :: 0 <= j < i.value ==> !Fires(rules[j], text)
    ensures i.None? ==> forall j :: 0 <= j < |rules| ==> !Fires(rules[j], text)
  {
    if rules == [] then None
    else if Fires(rules[0], text) then Some(0)
    else match FirstFiring(text, rules[1..])
      case None => None
      case Some(i) => Some(i + 1)
  }

  /** The rule engine is total: the catch-all rule guarantees that some rule fires. */
  lemma SomeRuleFires(text: string)
    ensures FirstFiring(text, RuleOrder).Some?
  {
    assert Fires(RuleOrder[6], text);
  }

  /** The if/elif chain gives the advice of the first rule of the table that fires. */
  lemma RuleBasedIsFirstMatch(text: string, confidence: real)
    ensures FirstFiring(text, RuleOrder).Some?
    ensures RuleBasedCoaching(text, confidence) == RuleOrder[FirstFiring(text, RuleOrder).value]
  {
    SomeRuleFires(text);
    var i := FirstFiring(text, RuleOrder).value;
    assert Fires(RuleOrder[i], text);
    assert 0 < i ==> !Fires(RuleOrder[0], text);
    assert 1 < i ==> !Fires(RuleOrder[1], text);
    assert 2 < i ==> !Fires(RuleOrder[2], text);
    assert 3 < i ==> !Fires(RuleOrder[3], text);
    assert 4 < i ==> !Fires(RuleOrder[4], text);
    assert 5 < i ==> !Fires(RuleOrder[5], text);
  }

  /** Keywords are substrings, not words: "hi" inside "this" makes it a greeting. */
  lemma HiInsideThis()
    ensures RuleBasedCoaching("this", 0.0) == GreetingRule
  {
    ThisHasNoKeyword();
    ThisIsShortStatement();
    assert "this"[1..] == "his";
    assert Text.Contains("this", "hi");
  }

  lemma ThisHasNoKeyword()
    ensures !Fires(PriceRule, "this") && !Fires(ProblemRule, "this") && !Fires(SolutionRule, "this")
  {
    assert Text.Lower("this") == "this";
    ThisNotPricing();
    ThisNotProblem();
    ThisNotSolution();
  }

  lemma ThisNotPricing()
    ensures !AnyIn("this", PriceWords)
  {
    Text.MissingCharExcludes("this", "price", 'p');
    Text.MissingCharExcludes("this", "cost", 'c');
    Text.MissingCharExcludes("this", "expensive", 'e');
    Text.MissingCharExcludes("this", "budget", 'b');
    Text.MissingCharExcludes("this", "money", 'm');
    NoneIn("this", PriceWords);
  }

  lemma ThisNotProblem()
    ensures !AnyIn("this", ProblemWords)
  {
    Text.MissingCharExcludes("this", "problem", 'p');
    Text.MissingCharExcludes("this", "challenge", 'c');
    Text.MissingCharExcludes("this", "issue", 'u');
    Text.MissingCharExcludes("this", "difficult", 'd');
    NoneIn("this", ProblemWords);
  }

  lemma ThisNotSolution()
    ensures !AnyIn("this", SolutionWords)
  {
    Text.MissingCharExcludes("this", "solution", 'o');
    Text.MissingCharExcludes("this", "help", 'e');
    Text.MissingCharExcludes("this", "solve", 'o');
    Text.MissingCharExcludes("this", "fix", 'f');
    NoneIn("this", SolutionWords);
  }

  /** A text none of whose words it contains fires no keyword rule on them. */
  lemma {:induction false} NoneIn(t: string, words: seq<string>)
    requires forall w :: w in words ==> !Text.Contains(t, w)
    ensures !AnyIn(t, words)
  {
    if words != [] {
      assert words[0] in words;
      NoneIn(t, words[1..]);
    }
  }

  lemma ThisIsShortStatement()
    ensures !Fires(QuestionRule, "this") && !Fires(DetailRule, "this")
  {
    Text.MissingCharExcludes("this", "?", '?');
  }

  // ---------------------------------------------------------------------------
  // The language-model breaker
  // ---------------------------------------------------------------------------

  const MaxLlmFailures: nat := 3

  /** Only a stripped transcript of more than two characters is coached. */
  predicate Coachable(text: string)
  {
    |Text.Strip(text)| > 2
  }

  class FinalIntegratedCoach {
    var llmAvailable: bool
    var llmFailures: nat
    var transcriptionCount: nat
    var coachingCount: nat

    /** The breaker: at most three failures are ever counted, and three of them disable the model for good. */
    predicate Valid()
      reads this`llmFailures, this`llmAvailable
    {
      llmFailures <= MaxLlmFailures && (llmFailures == MaxLlmFailures ==> !llmAvailable)
    }

    /** Whether the next advice will try the language model first. */
    predicate TriesLlm()
      reads this`llmFailures, this`llmAvailable
    {
      llmAvailable && llmFailures < MaxLlmFailures
    }

    /** `llmAvailable` is the result of the availability probe. */
    constructor (probeSucceeded: bool)
      ensures Valid()
      ensures llmAvailable == probeSucceeded && llmFailures == 0
      ensures transcriptionCount == 0 && coachingCount == 0
    {
      llmAvailable := probeSucceeded;
      llmFailures := 0;
      transcriptionCount := 0;
      coachingCount := 0;
    }

    /**
     * `_get_coaching_advice`: the model's advice when it is tried and succeeds; otherwise the
     * rule engine's, after counting a failure when the model was tried.
     */
    method GetCoachingAdvice(text: string, confidence: real, llm: Option<RuleAdvice>) returns (advice: Coaching)
      requires Valid()
      modifies this
      ensures Valid()
      ensures old(TriesLlm()) && llm.Some? ==> advice == FromLlm(llm.value) && llmFailures == old(llmFailures) && llmAvailable
      ensures old(TriesLlm()) && llm.None? ==> advice == FromRules(RuleBasedCoaching(text, confidence)) && llmFailures == old(llmFailures) + 1
      ensures old(TriesLlm()) && llm.None? ==> (llmAvailable <==> llmFailures < MaxLlmFailures)
      ensures !old(TriesLlm()) ==> advice == FromRules(RuleBasedCoaching(text, confidence)) && llmFailures == old(llmFailures) && llmAvailable == old(llmAvailable)
      ensures llmAvailable ==> old(llmAvailable)
      ensures old(llmAvailable) ==> llmFailures == FailuresAfter(old(llmFailures), [llm.Some?])
      ensures transcriptionCount == old(transcriptionCount) && coachingCount == old(coachingCount)
    {
      if llmAvailable && llmFailures < MaxLlmFailures {
        if llm.Some? {
          return FromLlm(llm.value);
        }
        llmFailures := llmFailures + 1;
        if llmFailures >= MaxLlmFailures {
          llmAvailable := false;
        }
      }
      advice := FromRules(RuleBasedCoaching(text, confidence));
    }

    /**
     * One transcript of the `run` loop: a loud enough chunk whose transcript passes the
     * length filter is counted, coached with its stripped text, and the advice counted.
     */
    method HandleTranscript(rms: real, threshold: real, text: string, confidence: real, llm: Option<RuleAdvice>) returns (advice: Option<Coaching>)
      requires Valid()
      modifies this
      ensures Valid()
      ensures advice.Some? <==> rms > threshold && Coachable(text)
      ensures advice.Some? ==> transcriptionCount == old(transcriptionCount) + 1 && coachingCount == old(coachingCount) + 1
      ensures advice.Some? ==> advice.value == if old(TriesLlm()) && llm.Some? then FromLlm(llm.value) else FromRules(RuleBasedCoaching(Text.Strip(text), confidence))
      ensures advice.None? ==> transcriptionCount == old(transcriptionCount) && coachingCount == old(coachingCount)
      ensures advice.None? ==> llmFailures == old(llmFailures) && llmAvailable == old(llmAvailable)
      ensures llmAvailable ==> old(llmAvailable)
    {
      if rms <= threshold {
        return None;
      }
      var stripped := Text.Strip(text);
      if |stripped| <= 2 {
        return None;
      }
      var a := CoachTranscript(stripped, confidence, llm);
      advice := Some(a);
    }

    /** The counted part of one coached transcript. */
    method CoachTranscript(stripped: string, confidence: real, llm: Option<RuleAdvice>) returns (advice: Coaching)
      requires Valid()
      modifies this
      ensures Valid()
      ensures transcriptionCount == old(transcriptionCount) + 1 && coachingCount == old(coachingCount) + 1
      ensures advice == if old(TriesLlm()) && llm.Some? then FromLlm(llm.value) else FromRules(RuleBasedCoaching(stripped, confidence))
      ensures llmAvailable ==> old(llmAvailable)
    {
      transcriptionCount := transcriptionCount + 1;
      advice := GetCoachingAdvice(stripped, confidence, llm);
      coachingCount := coachingCount + 1;
    }
  }

  /** How many attempts of a run failed. */
  function Failed(outcomes: seq<bool>): nat
  {
    if outcomes == [] then 0
    else Failed(outcomes[..|outcomes| - 1]) + (if outcomes[|outcomes| - 1] then 0 else 1)
  }

  /** The failure count reached after a run of attempts, each `true` when the model's advice arrived. */
  function FailuresAfter(failures: nat, outcomes: seq<bool>): (n: nat)
    requires failures <= MaxLlmFailures
    ensures failures <= n <= MaxLlmFailures
  {
    if outcomes == [] then failures
    else
      var before := FailuresAfter(failures, outcomes[..|outcomes| - 1]);
      if before < MaxLlmFailures && !outcomes[|outcomes| - 1] then before + 1 else before
  }

  /** Successes never reset the counter, so any three failures trip the breaker, however they are spread out. */
  lemma {:induction false} ThreeFailuresTrip(failures: nat, outcomes: seq<bool>)
    requires failures <= MaxLlmFailures
    ensures FailuresAfter(failures, outcomes) == if failures + Failed(outcomes) >= MaxLlmFailures then MaxLlmFailures else failures + Failed(outcomes)
  {
    if outcomes != [] {
      ThreeFailuresTrip(failures, outcomes[..|outcomes| - 1]);
    }
  }
}
