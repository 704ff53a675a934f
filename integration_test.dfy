/**
 * The text-only coaching check of the integration tests (`test_text_to_coaching` and
 * `_generate_simple_coaching` in `tests/test_integration.py`): a four-rule keyword coach,
 * three scripted sentences, and the success-rate threshold the test returns.
 */
module IntegrationScript {
  import opened Common
  import opened Conversation
  import Text

  /** The four dictionaries `_generate_simple_coaching` can return. */
  datatype SimpleRule = Opening | DiscoveryQuestion | ValueStatement | KeepListening

  /** The dictionary's `category`. */
  function RuleCategory(r: SimpleRule): Category
  {
    match r
    case Opening => RapportBuilding
    case DiscoveryQuestion => Questioning
    case ValueStatement => ValueProposition
    case KeepListening => Listening
  }

  /** The dictionary's `advice`. */
  function RuleAdvice(r: SimpleRule): string
  {
    match r
    case Opening => "Good opening. Now transition to discovery questions."
    case DiscoveryQuestion => "Great discovery question. Listen actively to their response."
    case ValueStatement => "Good value statement. Connect it to their specific needs."
    case KeepListening => "Continue to actively listen and take notes."
  }

  /** The greeting test, on the lowercased text. */
  predicate Greets(lowered: string)
  {
    Text.Contains(lowered, "hello") || Text.Contains(lowered, "thanks")
  }

  /** The discovery test: two keywords in the lowercased text, or a '?' in the text as given. */
  predicate Probes(lowered: string, text: string)
  {
    Text.Contains(lowered, "challenge") || Text.Contains(lowered, "problem") || Text.Contains(text, "?")
  }

  /** The value test, on the lowercased text. */
  predicate Offers(lowered: string)
  {
    Text.Contains(lowered, "solution") || Text.Contains(lowered, "save")
  }

  /** `_generate_simple_coaching`. */
  function SimpleCoaching(text: string): SimpleRule
  {
    var lowered := Text.Lower(text);
    if Greets(lowered) then Opening
    else if Probes(lowered, text) then DiscoveryQuestion
    else if Offers(lowered) then ValueStatement
    else KeepListening
  }

  /**
   * The rules apply in order: a greeting decides whatever else the text holds, a question
   * decides over a value statement, and only a text with none of the keywords gets the
   * listening advice.
   */
  lemma SimpleCoachingOrder(text: string)
    ensures var r := SimpleCoaching(text); var lowered := Text.Lower(text);
      (r == Opening <==> Greets(lowered))
      && (r == DiscoveryQuestion <==> !Greets(lowered) && Probes(lowered, text))
      && (r == ValueStatement <==> !Greets(lowered) && !Probes(lowered, text) && Offers(lowered))
      && (r == KeepListening <==> !Greets(lowered) && !Probes(lowered, text) && !Offers(lowered))
  {
  }

  /** Case does not matter to the keyword rules; only the '?' rule reads the text as given. */
  lemma {:induction false} GreetingIgnoresCase(text: string)
    ensures (SimpleCoaching(text) == Opening) == (SimpleCoaching(Text.Lower(text)) == Opening)
  {
    LowerIdempotent(text);
  }

  lemma {:induction false} LowerIdempotent(s: string)
    ensures Text.Lower(Text.Lower(s)) == Text.Lower(s)
  {
    var l := Text.Lower(s);
    forall k | 0 <= k < |l|
      ensures Text.Lower(l)[k] == l[k]
    {
      assert l[k] == Text.LowerChar(s[k]);
    }
  }

  /**
   * The sentences `test_text_to_coaching` feeds to the coach, written as the pieces the
   * proofs below cut them into; each piece but the last ends with its space.
   */
  const OpeningText: string := "Hello, " + "thanks for joining our call today."
  const QuestionText: string := "What " + "challenges " + "are you currently facing " + "with your data processing?"
  const ValueText: string := "Our automation " + "solution " + "could save you 20 " + "hours per " + "week."
  const TestInputs: seq<string> := [OpeningText, QuestionText, ValueText]

  /**
   * A dictionary counts as a success when it is truthy, that is, has at least one key. Every
   * dictionary the rule engine returns has its two keys, so its truthiness is modelled here by
   * its advice text being non-empty.
   */
  predicate Truthy(r: SimpleRule)
  {
    |RuleAdvice(r)| > 0
  }

  lemma AdviceNonEmpty(r: SimpleRule)
    ensures Truthy(r)
  {
    match r
    case Opening => assert |RuleAdvice(Opening)| > 0;
    case DiscoveryQuestion => assert |RuleAdvice(DiscoveryQuestion)| > 0;
    case ValueStatement => assert |RuleAdvice(ValueStatement)| > 0;
    case KeepListening => assert |RuleAdvice(KeepListening)| > 0;
  }

  /** `successful_responses` after the loop. */
  function Successes(inputs: seq<string>): (n: nat)
    ensures n <= |inputs|
  {
    if inputs == [] then 0
    else Successes(inputs[..|inputs| - 1]) + (if Truthy(SimpleCoaching(inputs[|inputs| - 1])) then 1 else 0)
  }

  /** `(successful_responses / len(test_inputs)) * 100`; an empty list would raise on the division. */
  function SuccessRate(inputs: seq<string>): (r: Option<real>)
    ensures r.Some? <==> |inputs| > 0
  {
    if |inputs| == 0 then None
    else Some((Successes(inputs) as real / |inputs| as real) * 100.0)
  }

  /** What the test returns. */
  predicate TestPasses(inputs: seq<string>)
  {
    match SuccessRate(inputs)
    case None => false
    case Some(rate) => rate >= 80.0
  }

  /** Every input gets advice. */
  lemma {:induction false} EveryInputSucceeds(inputs: seq<string>)
    ensures Successes(inputs) == |inputs|
  {
    if inputs != [] {
      EveryInputSucceeds(inputs[..|inputs| - 1]);
      AdviceNonEmpty(SimpleCoaching(inputs[|inputs| - 1]));
    }
  }

  /** So any non-empty input list scores one hundred percent and the test passes. */
  lemma AnyScriptPasses(inputs: seq<string>)
    requires |inputs| > 0
    ensures SuccessRate(inputs) == Some(100.0)
    ensures TestPasses(inputs)
  {
    EveryInputSucceeds(inputs);
    var n := |inputs| as real;
    assert n / n == 1.0;
  }

  /** The three scripted sentences get the opening, discovery and value advice, in that order, and the test passes. */
  lemma ScriptedAdvice()
    ensures SimpleCoaching(TestInputs[0]) == Opening
    ensures SimpleCoaching(TestInputs[1]) == DiscoveryQuestion
    ensures SimpleCoaching(TestInputs[2]) == ValueStatement
    ensures TestPasses(TestInputs)
  {
    OpeningAdvice();
    QuestionAdvice();
    ValueAdvice();
    AnyScriptPasses(TestInputs);
  }

  lemma OpeningAdvice()
    ensures SimpleCoaching(OpeningText) == Opening
  {
    OpeningKeywords("Hello, ", "thanks for joining our call today.");
  }

  lemma QuestionAdvice()
    ensures SimpleCoaching(QuestionText) == DiscoveryQuestion
  {
    QuestionKeywords("What ", "challenges ", "are you currently facing ", "with your data processing?");
  }

  lemma ValueAdvice()
    ensures SimpleCoaching(ValueText) == ValueStatement
  {
    ValueKeywords("Our automation ", "solution ", "could save you 20 ", "hours per ", "week.");
  }

  // The keyword facts about the scripted sentences are shown piece by piece: a sentence is
  // cut after spaces, and a keyword (which holds no space) occurs in it only if it occurs in
  // one of the pieces.

  /** `w` contains `p` neither as given nor lowercased. */
  predicate Excludes(w: string, p: string)
  {
    !Text.Contains(w, p) && !Text.Contains(Text.Lower(w), p)
  }

  predicate NoSpace(p: string)
  {
    forall k :: 0 <= k < |p| ==> p[k] != ' '
  }

  /** No character of `w` is `c` once lowercased. */
  predicate Avoids(w: string, c: char)
  {
    forall k :: 0 <= k < |w| ==> Text.LowerChar(w[k]) != c
  }

  /** A piece that avoids one of the keyword's characters, in either case, excludes the keyword. */
  lemma Lacks(w: string, p: string, c: char)
    requires c in p && !('A' <= c <= 'Z') && Avoids(w, c)
    ensures Excludes(w, p)
  {
    forall k | 0 <= k < |w|
      ensures w[k] != c
    {
      assert Text.LowerChar(w[k]) != c;
    }
    Text.MissingCharExcludes(w, p, c);
    Text.MissingCharExcludes(Text.Lower(w), p, c);
  }

  lemma ExcludesAcross(a: string, b: string, p: string)
    requires |a| > 0 && a[|a| - 1] == ' ' && NoSpace(p)
    requires Excludes(a, p) && Excludes(b, p)
    ensures Excludes(a + b, p)
  {
    Text.ContainsAcrossSpace(a, b, p);
    Text.LowerConcat(a, b);
    Text.ContainsAcrossSpace(Text.Lower(a), Text.Lower(b), p);
  }

  /** `p` is a prefix of the lowercased `w`. */
  predicate PrefixLowered(w: string, p: string)
  {
    p == [] || (|w| > 0 && Text.LowerChar(w[0]) == p[0] && PrefixLowered(w[1..], p[1..]))
  }

  lemma {:induction false} PrefixLoweredStarts(w: string, p: string)
    requires PrefixLowered(w, p)
    ensures Text.StartsWith(Text.Lower(w), p)
  {
    if p != [] {
      PrefixLoweredStarts(w[1..], p[1..]);
      assert Text.Lower(w)[1..] == Text.Lower(w[1..]);
    }
  }

  /** A keyword that begins a text, once lowercased, occurs in the lowercased text and anything after it. */
  lemma FoundFirst(b: string, c: string, p: string)
    requires PrefixLowered(b, p)
    ensures Text.Contains(Text.Lower(b + c), p)
  {
    PrefixLoweredStarts(b, p);
    Text.LowerConcat(b, c);
    Text.StartsWithIff(Text.Lower(b), p);
    Text.StartsWithIff(Text.Lower(b) + Text.Lower(c), p);
    assert (Text.Lower(b) + Text.Lower(c))[..|p|] == Text.Lower(b)[..|p|];
  }

  /** A keyword that begins a piece, once lowercased, occurs in the lowercased text around it. */
  lemma FoundAt(a: string, b: string, c: string, p: string)
    requires |a| > 0 && a[|a| - 1] == ' ' && NoSpace(p)
    requires PrefixLowered(b, p)
    ensures Text.Contains(Text.Lower(a + b + c), p)
  {
    var la, lbc := Text.Lower(a), Text.Lower(b + c);
    FoundFirst(b, c, p);
    assert a + b + c == a + (b + c);
    Text.LowerConcat(a, b + c);
    assert la[|la| - 1] == Text.LowerChar(a[|a| - 1]) == ' ';
    Text.ContainsAcrossSpace(la, lbc, p);
  }

  lemma OpeningKeywords(w1: string, w2: string)
    requires w1 == "Hello, " && w2 == "thanks for joining our call today."
    ensures Text.Contains(Text.Lower(w1 + w2), "hello")
  {
    PrefixLoweredOf(w1, "hello");
    FoundFirst(w1, w2, "hello");
  }

  predicate QuestionPieces(w1: string, w2: string, w3: string, w4: string)
  {
    w1 == "What " && w2 == "challenges " && w3 == "are you currently facing " && w4 == "with your data processing?"
  }

  lemma QuestionKeywords(w1: string, w2: string, w3: string, w4: string)
    requires QuestionPieces(w1, w2, w3, w4)
    ensures Excludes(w1 + w2 + w3 + w4, "hello") && Excludes(w1 + w2 + w3 + w4, "thanks")
    ensures Text.Contains(Text.Lower(w1 + w2 + w3 + w4), "challenge")
  {
    QuestionNoHello(w1, w2, w3, w4);
    QuestionNoThanks(w1, w2, w3, w4);
    QuestionChallenge(w1, w2, w3, w4);
  }

  lemma QuestionNoHello(w1: string, w2: string, w3: string, w4: string)
    requires QuestionPieces(w1, w2, w3, w4)
    ensures Excludes(w1 + w2 + w3 + w4, "hello")
  {
    Absent4(w1, w2, w3, w4, "hello", 'o', 'o', 'h', 'l');
  }

  lemma QuestionNoThanks(w1: string, w2: string, w3: string, w4: string)
    requires QuestionPieces(w1, w2, w3, w4)
    ensures Excludes(w1 + w2 + w3 + w4, "thanks")
  {
    Absent4(w1, w2, w3, w4, "thanks", 'k', 'k', 'k', 'k');
  }

  lemma QuestionChallenge(w1: string, w2: string, w3: string, w4: string)
    requires QuestionPieces(w1, w2, w3, w4)
    ensures Text.Contains(Text.Lower(w1 + w2 + w3 + w4), "challenge")
  {
    PrefixLoweredOf(w2, "challenge");
    FoundAt(w1, w2, w3 + w4, "challenge");
    assert w1 + w2 + (w3 + w4) == w1 + w2 + w3 + w4;
  }

  predicate ValuePieces(w1: string, w2: string, w3: string, w4: string, w5: string)
  {
    w1 == "Our automation " && w2 == "solution " && w3 == "could save you 20 " && w4 == "hours per " && w5 == "week."
  }

  lemma ValueKeywords(w1: string, w2: string, w3: string, w4: string, w5: string)
    requires ValuePieces(w1, w2, w3, w4, w5)
    ensures Excludes(w1 + w2 + w3 + w4 + w5, "hello") && Excludes(w1 + w2 + w3 + w4 + w5, "thanks")
    ensures Excludes(w1 + w2 + w3 + w4 + w5, "challenge") && Excludes(w1 + w2 + w3 + w4 + w5, "problem")
    ensures Excludes(w1 + w2 + w3 + w4 + w5, "?")
    ensures Text.Contains(Text.Lower(w1 + w2 + w3 + w4 + w5), "solution")
  {
    ValueNoHello(w1, w2, w3, w4, w5);
    ValueNoThanks(w1, w2, w3, w4, w5);
    ValueNoChallenge(w1, w2, w3, w4, w5);
    ValueNoProblem(w1, w2, w3, w4, w5);
    ValueNoQuestionMark(w1, w2, w3, w4, w5);
    ValueSolution(w1, w2, w3, w4, w5);
  }

  lemma ValueNoHello(w1: string, w2: string, w3: string, w4: string, w5: string)
    requires ValuePieces(w1, w2, w3, w4, w5)
    ensures Excludes(w1 + w2 + w3 + w4 + w5, "hello")
  {
    Absent5(w1, w2, w3, w4, w5, "hello", 'h', 'h', 'h', 'l', 'h');
  }

  lemma ValueNoThanks(w1: string, w2: string, w3: string, w4: string, w5: string)
    requires ValuePieces(w1, w2, w3, w4, w5)
    ensures Excludes(w1 + w2 + w3 + w4 + w5, "thanks")
  {
    Absent5(w1, w2, w3, w4, w5, "thanks", 'k', 'k', 'k', 'k', 't');
  }

  lemma ValueNoChallenge(w1: string, w2: string, w3: string, w4: string, w5: string)
    requires ValuePieces(w1, w2, w3, w4, w5)
    ensures Excludes(w1 + w2 + w3 + w4 + w5, "challenge")
  {
    Absent5(w1, w2, w3, w4, w5, "challenge", 'g', 'g', 'g', 'g', 'g');
  }

  lemma ValueNoProblem(w1: string, w2: string, w3: string, w4: string, w5: string)
    requires ValuePieces(w1, w2, w3, w4, w5)
    ensures Excludes(w1 + w2 + w3 + w4 + w5, "problem")
  {
    Absent5(w1, w2, w3, w4, w5, "problem", 'b', 'b', 'b', 'b', 'b');
  }

  lemma ValueNoQuestionMark(w1: string, w2: string, w3: string, w4: string, w5: string)
    requires ValuePieces(w1, w2, w3, w4, w5)
    ensures Excludes(w1 + w2 + w3 + w4 + w5, "?")
  {
    Absent5(w1, w2, w3, w4, w5, "?", '?', '?', '?', '?', '?');
  }

  lemma ValueSolution(w1: string, w2: string, w3: string, w4: string, w5: string)
    requires ValuePieces(w1, w2, w3, w4, w5)
    ensures Text.Contains(Text.Lower(w1 + w2 + w3 + w4 + w5), "solution")
  {
    PrefixLoweredOf(w2, "solution");
    FoundAt(w1, w2, w3 + w4 + w5, "solution");
    assert w1 + w2 + (w3 + w4 + w5) == w1 + w2 + w3 + w4 + w5;
  }

  /** `p` holds neither a space nor a capital letter. */
  predicate Plain(p: string)
  {
    forall k :: 0 <= k < |p| ==> p[k] != ' ' && !('A' <= p[k] <= 'Z')
  }

  predicate EndsWithSpace(w: string)
  {
    |w| > 0 && w[|w| - 1] == ' '
  }

  /** Four pieces, each lacking one of the keyword's characters, make a text that excludes the keyword. */
  lemma Absent4(w1: string, w2: string, w3: string, w4: string, p: string, c1: char, c2: char, c3: char, c4: char)
    requires Plain(p)
    requires EndsWithSpace(w1) && EndsWithSpace(w2) && EndsWithSpace(w3)
    requires c1 in p && c2 in p && c3 in p && c4 in p
    requires Avoids(w1, c1) && Avoids(w2, c2) && Avoids(w3, c3) && Avoids(w4, c4)
    ensures Excludes(w1 + w2 + w3 + w4, p)
  {
    Lacks(w1, p, c1);
    Lacks(w2, p, c2);
    Lacks(w3, p, c3);
    Lacks(w4, p, c4);
    ExcludesAcross(w1, w2, p);
    ExcludesAcross(w1 + w2, w3, p);
    ExcludesAcross(w1 + w2 + w3, w4, p);
  }

  lemma Absent5(w1: string, w2: string, w3: string, w4: string, w5: string, p: string,
                c1: char, c2: char, c3: char, c4: char, c5: char)
    requires Plain(p)
    requires EndsWithSpace(w1) && EndsWithSpace(w2) && EndsWithSpace(w3) && EndsWithSpace(w4)
    requires c1 in p && c2 in p && c3 in p && c4 in p && c5 in p
    requires Avoids(w1, c1) && Avoids(w2, c2) && Avoids(w3, c3) && Avoids(w4, c4) && Avoids(w5, c5)
    ensures Excludes(w1 + w2 + w3 + w4 + w5, p)
  {
    Absent4(w1, w2, w3, w4, p, c1, c2, c3, c4);
    Lacks(w5, p, c5);
    ExcludesAcross(w1 + w2 + w3 + w4, w5, p);
  }

  lemma {:induction false} PrefixLoweredOf(w: string, p: string)
    requires |p| <= |w| && forall k :: 0 <= k < |p| ==> Text.LowerChar(w[k]) == p[k]
    ensures PrefixLowered(w, p)
  {
    if p != [] {
      PrefixLoweredOf(w[1..], p[1..]);
    }
  }
}
