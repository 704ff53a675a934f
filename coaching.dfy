/**
 * The coaching engine: when a new turn triggers an analysis, the FIFO of
 * analysis requests and one step of its worker, and the reading of the
 * language model's reply: the three-strategy extraction of the JSON payload
 * and the field and enumeration checks that turn it into a coaching response.
 *
 * The language model's call is an outcome parameter (its text, or an
 * exception), the JSON decoder is a function parameter (`None` where
 * `json.loads` raises), and the clock is a `now` parameter in seconds.
 */
module Coaching {
  import opened Common
  import opened Conversation
  import Text

  /** A decoded JSON value. */
  datatype Json = JNull | JBool(b: bool) | JNumber(n: real) | JString(s: string) | JArray(items: seq<Json>) | JObject(fields: map<string, Json>)

  /**
   * How reading a reply ends: a response; `Rejected` for an empty reply and for the
   * decode, key and value errors `_parse_coaching_response` catches (it returns None);
   * `Crashed` for the type and attribute errors it does not catch.
   */
  datatype Parse<T> = Parsed(value: T) | Rejected | Crashed

  /** What the language model's call produced: its text, or an exception. */
  datatype LlmCall = Generated(text: string) | LlmRaised

  // ---------------------------------------------------------------------------
  // Extraction of the JSON payload
  // ---------------------------------------------------------------------------

  const JsonFence: string := "```json"
  const Fence: string := "```"

  /**
   * The payload of a fenced block, read against the text after its opening marker: the prefix
   * of that text before its first "```", or all of it when it holds none.
   */
  ghost predicate FenceDelimited(rest: string, p: string)
  {
    && p <= rest
    && (forall k :: !Text.OccursAt(p, Fence, k))
    && (forall k :: 0 <= k < |p| ==> !Text.OccursAt(rest, Fence, k))
    && (p == rest || Text.OccursAt(rest, Fence, |p|))
  }

  /** Cutting a text at its first "```" leaves its fence-delimited payload. */
  lemma FirstFenceCut(x: string)
    ensures FenceDelimited(x, Text.SplitFirst(x, Fence))
  {
    var b := Text.SplitFirst(x, Fence);
    forall k | Text.OccursAt(b, Fence, k)
      ensures false
    {
      assert b[k..k + |Fence|] == x[k..k + |Fence|];
      assert Text.OccursAt(x, Fence, k);
    }
  }

  /** Where "```json" occurs, so does "```". */
  lemma JsonFenceOpensFence(t: string, i: int)
    requires Text.OccursAt(t, JsonFence, i)
    ensures Text.OccursAt(t, Fence, i)
  {
    assert t[i..i + |Fence|] == t[i..i + |JsonFence|][..|Fence|];
  }

  /**
   * Strategy 1: the text after the first "```json", cut at the next "```json" and then at
   * the next "```"; else the text after the first "```" up to the next "```". There is a block
   * exactly when the reply holds a "```".
   */
  function FencedBlock(t: string): (r: Option<string>)
    ensures r.Some? <==> Text.Find(t, Fence).Some?
    ensures Text.Find(t, JsonFence).Some? ==>
      r.Some? && FenceDelimited(Text.SplitFirst(t[Text.Find(t, JsonFence).value + |JsonFence|..], JsonFence), r.value)
    ensures Text.Find(t, JsonFence).None? && r.Some? ==> FenceDelimited(t[Text.Find(t, Fence).value + |Fence|..], r.value)
  {
    match Text.SplitSecond(t, JsonFence)
    case Some(after) =>
      JsonFenceOpensFence(t, Text.Find(t, JsonFence).value);
      FirstFenceCut(after);
      Some(Text.SplitFirst(after, Fence))
    case None =>
      match Text.SplitSecond(t, Fence)
      case Some(after) =>
        FirstFenceCut(t[Text.Find(t, Fence).value + |Fence|..]);
        assert Text.SplitFirst(after, Fence) == after;
        Some(Text.SplitFirst(after, Fence))
      case None => None
  }

  /**
   * Strategy 2: from the first '{' to the last '}' inclusive. There is such a span exactly when
   * some '{' comes before some '}'; no '{' precedes it and no '}' follows it.
   */
  function BraceSpan(t: string): (r: Option<string>)
    ensures r.Some? <==> exists i, j :: 0 <= i < j < |t| && t[i] == '{' && t[j] == '}'
    ensures r.Some? ==> r.value != [] && r.value[0] == '{' && r.value[|r.value| - 1] == '}'
    ensures r.Some? ==> exists i :: Text.OccursAt(t, r.value, i) && '{' !in t[..i] && '}' !in t[i + |r.value|..]
  {
    Text.FindChar(t, '{');
    match Text.Find(t, "{")
    case None => None
    case Some(start) =>
      match Text.RFindChar(t, '}')
      case None => None
      case Some(last) =>
        if last + 1 > start then
          assert Text.OccursAt(t, t[start..last + 1], start);
          Some(t[start..last + 1])
        else None
  }

  /**
   * The extracted text before its final strip: a non-empty fenced block, else the brace span,
   * else the whole reply. It is always a contiguous piece of the reply.
   */
  function Extract(t: string): (r: string)
    ensures FencedBlock(t).Some? && FencedBlock(t).value != [] ==> r == FencedBlock(t).value
    ensures (FencedBlock(t).None? || FencedBlock(t).value == []) && BraceSpan(t).Some? ==> r == BraceSpan(t).value
    ensures (FencedBlock(t).None? || FencedBlock(t).value == []) && BraceSpan(t).None? ==> r == t
    ensures exists i :: Text.OccursAt(t, r, i)
  {
    var fenced := FencedBlock(t);
    if fenced.Some? && fenced.value != [] then
      FencedPiece(t);
      fenced.value
    else if BraceSpan(t).Some? then BraceSpan(t).value
    else
      assert Text.OccursAt(t, t, 0);
      t
  }

  /** A fenced block is a contiguous piece of the reply. */
  lemma FencedPiece(t: string)
    requires FencedBlock(t).Some?
    ensures exists i :: Text.OccursAt(t, FencedBlock(t).value, i)
  {
    var p := FencedBlock(t).value;
    if Text.Find(t, JsonFence).Some? {
      var i := Text.Find(t, JsonFence).value + |JsonFence|;
      PrefixPiece(t, i, Text.SplitFirst(t[i..], JsonFence), p);
    } else {
      var i := Text.Find(t, Fence).value + |Fence|;
      PrefixPiece(t, i, t[i..], p);
    }
  }

  /** A prefix of a prefix of `t[i..]` occurs in `t` at `i`. */
  lemma PrefixPiece(t: string, i: int, a: string, p: string)
    requires 0 <= i <= |t| && p <= a && a <= t[i..]
    ensures Text.OccursAt(t, p, i)
  {
    assert p == t[i..][..|p|];
  }

  /** The payload handed to the decoder: None when the reply, or what was extracted from it, is blank. */
  function ExtractJson(text: string): (r: Option<string>)
    ensures r.None? <==> Text.IsBlank(text) || Text.IsBlank(Extract(Text.Strip(text)))
    ensures r.Some? ==> r.value == Text.Strip(Extract(Text.Strip(text)))
    ensures r.Some? ==> r.value != [] && Text.Strip(r.value) == r.value
  {
    Text.StripIdempotent(Extract(Text.Strip(text)));
    if Text.Strip(text) == [] then None
    else if Text.Strip(Extract(Text.Strip(text))) == [] then None
    else Some(Text.Strip(Extract(Text.Strip(text))))
  }

  /** With no backtick before it, the first "```json" is the one right after `pre`. */
  lemma JsonMarkerAfter(pre: string, rest: string)
    requires '`' !in pre
    ensures Text.Find(pre + JsonFence + rest, JsonFence) == Some(|pre|)
  {
    var t := pre + JsonFence + rest;
    assert t[|pre|..|pre| + |JsonFence|] == JsonFence;
    forall k | 0 <= k < |pre|
      ensures !Text.OccursAt(t, JsonFence, k)
    {
      assert t[k] == pre[k];
    }
    Text.FindAt(t, JsonFence, |pre|);
  }

  /** A fence is three backticks. */
  lemma FenceTicks(s: string, k: int)
    requires Text.OccursAt(s, Fence, k)
    ensures s[k] == '`' && s[k + 1] == '`' && s[k + 2] == '`'
  {
    assert s[k..k + |Fence|] == Fence;
  }

  /** A "```json" marker opens with three backticks. */
  lemma JsonTicks(s: string, k: int)
    requires Text.OccursAt(s, JsonFence, k)
    ensures s[k] == '`' && s[k + 1] == '`' && s[k + 2] == '`'
  {
    assert s[k..k + |JsonFence|] == JsonFence;
  }

  /** When the payload before a fence holds no backtick, the fence-delimited payload is exactly it. */
  lemma PayloadBeforeFence(payload: string, post: string, b: string)
    requires '`' !in payload
    requires FenceDelimited(payload + Fence + post, b)
    ensures b == payload
  {
    var x := payload + Fence + post;
    var n := |payload|;
    assert x[n..n + |Fence|] == Fence;
    if |b| > n {
      assert Text.OccursAt(x, Fence, n);
      assert false;
    } else if |b| < n {
      FenceTicks(x, |b|);
      assert false;
    }
    assert b == x[..n];
  }

  /**
   * After a backtick-free payload, a closing "```" and text that does not open with a backtick,
   * the next "```json" (if any) starts at the closing fence or after it.
   */
  lemma JsonCutAfterPayload(payload: string, post: string)
    requires '`' !in payload && (post == [] || post[0] != '`')
    ensures var a := Text.SplitFirst(payload + Fence + post, JsonFence);
      a == payload || (|a| >= |payload| + |Fence| && a == payload + Fence + a[|payload| + |Fence|..])
  {
    var x := payload + Fence + post;
    var a := Text.SplitFirst(x, JsonFence);
    var n := |payload|;
    if a != x {
      JsonTicks(x, |a|);
      if |a| < n {
        assert false;
      } else if n < |a| < n + |Fence| {
        assert false;
      }
    }
    if |a| >= n + |Fence| {
      assert a[..n + |Fence|] == x[..n + |Fence|];
    }
  }

  /**
   * A reply made of text without backticks, a "```json" marker, a payload without backticks, a
   * closing "```" and text that does not open with a backtick has exactly that payload as its
   * fenced block.
   */
  lemma FencedPayload(pre: string, payload: string, post: string)
    requires '`' !in pre && '`' !in payload && (post == [] || post[0] != '`')
    ensures FencedBlock(pre + JsonFence + payload + Fence + post) == Some(payload)
  {
    var rest := payload + Fence + post;
    var t := pre + JsonFence + rest;
    assert t == pre + JsonFence + payload + Fence + post;
    JsonMarkerAfter(pre, rest);
    assert t[|pre| + |JsonFence|..] == rest;
    JsonCutAfterPayload(payload, post);
    var a := Text.SplitFirst(rest, JsonFence);
    var p := FencedBlock(t).value;
    if a == payload {
      if p != payload {
        FenceTicks(payload, |p|);
        assert false;
      }
    } else {
      PayloadBeforeFence(payload, a[|payload| + |Fence|..], p);
    }
  }

  /** The fenced payload wins over any brace span when it is not empty. */
  lemma FencedFirst(pre: string, payload: string, post: string)
    requires '`' !in pre && '`' !in payload && (post == [] || post[0] != '`') && payload != []
    ensures Extract(pre + JsonFence + payload + Fence + post) == payload
  {
    FencedPayload(pre, payload, post);
  }

  /** An empty fenced block falls through to the brace span, and without one to the whole reply. */
  lemma EmptyFenceFallsThrough(pre: string, post: string)
    requires '`' !in pre && (post == [] || post[0] != '`')
    ensures var t := pre + JsonFence + Fence + post;
      FencedBlock(t) == Some([]) && Extract(t) == if BraceSpan(t).Some? then BraceSpan(t).value else t
  {
    FencedPayload(pre, [], post);
    assert pre + JsonFence + [] + Fence + post == pre + JsonFence + Fence + post;
  }

  /**
   * The block is cut at the next "```json" before it is cut at "```": when a backtick-free
   * payload is followed by one backtick and another "```json", the block is the payload and
   * that backtick, although a "```" starts inside it in the text after the first marker.
   */
  lemma JsonCutBeforeFence(pre: string, payload: string, post: string)
    requires '`' !in pre && '`' !in payload
    ensures var rest := payload + "`" + JsonFence + post;
      && FencedBlock(pre + JsonFence + rest) == Some(payload + "`")
      && Text.OccursAt(rest, Fence, |payload|)
  {
    var rest := payload + "`" + JsonFence + post;
    var t := pre + JsonFence + rest;
    JsonMarkerAfter(pre, rest);
    assert t[|pre| + |JsonFence|..] == rest;
    StraddleSection(payload, post);
    var p := FencedBlock(t).value;
    var a := payload + "`";
    if p != a {
      FenceTicks(a, |p|);
      assert false;
    }
    assert rest[|payload|..|payload| + |Fence|] == Fence;
  }

  /** After a backtick-free payload and one backtick, the first "```json" is the one that follows. */
  lemma StraddleSection(payload: string, post: string)
    requires '`' !in payload
    ensures Text.SplitFirst(payload + "`" + JsonFence + post, JsonFence) == payload + "`"
  {
    var rest := payload + "`" + JsonFence + post;
    var n := |payload|;
    assert rest[n + 1..n + 1 + |JsonFence|] == JsonFence;
    forall k | 0 <= k <= n
      ensures !Text.OccursAt(rest, JsonFence, k)
    {
      if k < n {
        assert rest[k] == payload[k];
      } else {
        assert rest[n + 3] != JsonFence[3];
      }
    }
    Text.FindAt(rest, JsonFence, n + 1);
    assert rest[..n + 1] == payload + "`";
  }

  /** Without any fence, the braces are used when a '}' follows the first '{', else the whole reply. */
  lemma BracesWithoutFence(t: string)
    requires !Text.Contains(t, Fence)
    ensures FencedBlock(t).None?
    ensures BraceSpan(t).Some? ==> Extract(t) == BraceSpan(t).value
    ensures BraceSpan(t).None? ==> Extract(t) == t
  {
    Text.ContainsIff(t, Fence);
    match Text.Find(t, JsonFence)
    case Some(i) =>
      assert t[i..i + 3] == t[i..i + |JsonFence|][..3];
      assert Text.OccursAt(t, Fence, i);
      assert false;
    case None =>
      match Text.Find(t, Fence)
      case Some(i) =>
        assert false;
      case None =>
  }

  /**
   * A fenced block of only whitespace is kept (it is not empty), so the reply is rejected
   * even when it also holds a brace span.
   */
  lemma BlankFenceRejects(text: string)
    requires !Text.IsBlank(text)
    requires FencedBlock(Text.Strip(text)).Some? && FencedBlock(Text.Strip(text)).value != []
    requires Text.IsBlank(FencedBlock(Text.Strip(text)).value)
    ensures ExtractJson(text).None?
  {
  }

  // ---------------------------------------------------------------------------
  // Field checks
  // ---------------------------------------------------------------------------

  function Get(fields: map<string, Json>, key: string): Option<Json>
  {
    if key in fields then Some(fields[key]) else None
  }

  /** An optional string field read with `.get`: absent or null is None; anything but a string is rejected. */
  function OptString(j: Option<Json>): (r: Parse<Option<string>>)
    ensures r != Crashed
  {
    match j
    case None => Parsed(None)
    case Some(JNull) => Parsed(None)
    case Some(JString(s)) => Parsed(Some(s))
    case Some(_) => Rejected
  }

  /** A required string field read with `[...]`: a missing key or a non-string is rejected. */
  function ReqString(j: Option<Json>): (r: Parse<string>)
    ensures r != Crashed
    ensures r.Parsed? <==> j.Some? && j.value.JString?
  {
    match j
    case Some(JString(s)) => Parsed(s)
    case _ => Rejected
  }

  /** Reading an enumeration from a required field: a missing key or an unknown value is rejected. */
  function ReqEnum<E>(j: Option<Json>, lookup: string -> Option<E>): (r: Parse<E>)
    ensures r != Crashed
  {
    match j
    case Some(JString(s)) => (match lookup(s) case Some(e) => Parsed(e) case None => Rejected)
    case _ => Rejected
  }

  function SentimentOf(v: string): Option<Sentiment>
  {
    if v == "positive" then Some(Positive)
    else if v == "neutral" then Some(Neutral)
    else if v == "negative" then Some(Negative)
    else None
  }

  function EngagementOf(v: string): Option<Engagement>
  {
    if v == "high" then Some(EngagementHigh)
    else if v == "medium" then Some(EngagementMedium)
    else if v == "low" then Some(EngagementLow)
    else None
  }

  /** An optional literal field: absent or null is None; a string outside the literals, or a non-string, is rejected. */
  function OptEnum<E>(j: Option<Json>, lookup: string -> Option<E>): (r: Parse<Option<E>>)
    ensures r != Crashed
  {
    match j
    case None => Parsed(None)
    case Some(JNull) => Parsed(None)
    case Some(JString(s)) => (match lookup(s) case Some(e) => Parsed(Some(e)) case None => Rejected)
    case Some(_) => Rejected
  }

  /** The strings of a JSON array, or None when some item is not a string. */
  function Strings(items: seq<Json>): (r: Option<seq<string>>)
    ensures r.Some? ==> |r.value| == |items| && forall k :: 0 <= k < |items| ==> items[k] == JString(r.value[k])
    ensures r.None? ==> exists k :: 0 <= k < |items| && !items[k].JString?
  {
    if items == [] then Some([])
    else
      var init := Strings(items[..|items| - 1]);
      var last := items[|items| - 1];
      if init.Some? && last.JString? then Some(init.value + [last.s])
      else if init.None? then
        var k :| 0 <= k < |items| - 1 && !items[..|items| - 1][k].JString?;
        assert items[k] == items[..|items| - 1][k];
        None
      else None
  }

  /** `key_topics`, read with `.get(..., [])`: absent is empty; otherwise it must be an array of strings. */
  function Topics(j: Option<Json>): (r: Parse<seq<string>>)
    ensures r != Crashed
  {
    match j
    case None => Parsed([])
    case Some(JArray(items)) => (match Strings(items) case Some(ss) => Parsed(ss) case None => Rejected)
    case Some(_) => Rejected
  }

  /** The `analysis` object; anything but an object fails on `.get` with an uncaught attribute error. */
  function AnalysisFrom(j: Json): (r: Parse<Analysis>)
    ensures r.Crashed? <==> !j.JObject?
    ensures r.Parsed? ==> Get(j.fields, "conversation_stage") == Some(JString(StageName(r.value.stage)))
  {
    if !j.JObject? then Crashed
    else
      var f := j.fields;
      var concern := OptString(Get(f, "customer_concern"));
      var approach := OptString(Get(f, "sales_rep_approach"));
      var stage := ReqEnum(Get(f, "conversation_stage"), StageOf);
      var topics := Topics(Get(f, "key_topics"));
      var sentiment := OptEnum(Get(f, "customer_sentiment"), SentimentOf);
      var engagement := OptEnum(Get(f, "engagement_level"), EngagementOf);
      if concern.Parsed? && approach.Parsed? && stage.Parsed? && topics.Parsed? && sentiment.Parsed? && engagement.Parsed? then
        Parsed(Analysis(concern.value, approach.value, stage.value, topics.value, sentiment.value, engagement.value))
      else Rejected
  }

  /** The `primary_advice` object; indexing anything but an object raises an uncaught type error. */
  function AdviceFrom(j: Json): (r: Parse<Advice>)
    ensures r.Crashed? <==> !j.JObject?
    ensures r.Parsed? ==> Get(j.fields, "priority") == Some(JString(PriorityName(r.value.priority)))
    ensures r.Parsed? ==> Get(j.fields, "category") == Some(JString(CategoryName(r.value.category)))
    ensures r.Parsed? ==> Get(j.fields, "insight") == Some(JString(r.value.insight))
    ensures r.Parsed? ==> Get(j.fields, "suggested_action") == Some(JString(r.value.suggestedAction))
  {
    if !j.JObject? then Crashed
    else
      var f := j.fields;
      var priority := ReqEnum(Get(f, "priority"), PriorityOf);
      var category := ReqEnum(Get(f, "category"), CategoryOf);
      var insight := ReqString(Get(f, "insight"));
      var action := ReqString(Get(f, "suggested_action"));
      var example := OptString(Get(f, "example_phrase"));
      var timing := OptString(Get(f, "timing"));
      if priority.Parsed? && category.Parsed? && insight.Parsed? && action.Parsed? && example.Parsed? && timing.Parsed? then
        Parsed(Advice(priority.value, category.value, insight.value, action.value, example.value, timing.value))
      else Rejected
  }

  /**
   * The `confidence` value as the float field of the response model takes it: a number as
   * itself, a boolean as 1.0 or 0.0; anything else fails validation.
   */
  function ConfidenceOf(j: Json): (r: Option<real>)
    ensures j.JNumber? ==> r == Some(j.n)
    ensures j.JBool? ==> r.Some? && UnitInterval(r.value) && (r.value == 1.0 <==> j.b)
    ensures !j.JNumber? && !j.JBool? ==> r.None?
  {
    match j
    case JNumber(n) => Some(n)
    case JBool(b) => Some(if b then 1.0 else 0.0)
    case _ => None
  }

  /** The decoded reply as a coaching response, checked in the order the fields are read. */
  function ResponseFrom(data: Json, contextWindow: int, now: real): (r: Parse<CoachingResponse>)
    ensures !data.JObject? ==> r == Crashed
    ensures data.JObject? && "analysis" !in data.fields ==> r == Rejected
    ensures r.Parsed? ==> data.JObject? && "analysis" in data.fields && "primary_advice" in data.fields && "confidence" in data.fields
    ensures r.Parsed? ==> ConfidenceOf(data.fields["confidence"]) == Some(r.value.confidence) && UnitInterval(r.value.confidence)
    ensures r.Parsed? ==> r.value.contextWindow == contextWindow && r.value.generatedAt == now && r.value.secondary.None?
    ensures r.Parsed? ==> AnalysisFrom(data.fields["analysis"]) == Parsed(r.value.analysis)
    ensures r.Parsed? ==> AdviceFrom(data.fields["primary_advice"]) == Parsed(r.value.primary)
  {
    if !data.JObject? then Crashed
    else if "analysis" !in data.fields then Rejected
    else match AnalysisFrom(data.fields["analysis"])
      case Crashed => Crashed
      case Rejected => Rejected
      case Parsed(analysis) =>
        if "primary_advice" !in data.fields then Rejected
        else match AdviceFrom(data.fields["primary_advice"])
          case Crashed => Crashed
          case Rejected => Rejected
          case Parsed(advice) =>
            if "confidence" !in data.fields then Rejected
            else match ConfidenceOf(data.fields["confidence"])
              case Some(c) =>
                (match MakeResponse(analysis, advice, c, contextWindow, now)
                 case Ok(response) => Parsed(response)
                 case Raised(_) => Rejected)
              case None => Rejected
  }

  /** `_parse_coaching_response`: extract the payload, decode it, then check its fields. */
  function ParseCoachingResponse(text: string, contextWindow: int, decode: string -> Option<Json>, now: real): (r: Parse<CoachingResponse>)
    ensures Text.IsBlank(text) ==> r == Rejected
    ensures r.Parsed? ==> ExtractJson(text).Some? && decode(ExtractJson(text).value).Some?
    ensures r.Parsed? ==> ResponseFrom(decode(ExtractJson(text).value).value, contextWindow, now) == r
  {
    match ExtractJson(text)
    case None => Rejected
    case Some(payload) =>
      match decode(payload)
      case None => Rejected
      case Some(data) => ResponseFrom(data, contextWindow, now)
  }

  // ---------------------------------------------------------------------------
  // The reply a well-formed response is written as
  // ---------------------------------------------------------------------------

  function OptStringJson(v: Option<string>): Json
  {
    match v
    case None => JNull
    case Some(s) => JString(s)
  }

  function StringsJson(ss: seq<string>): (r: seq<Json>)
    ensures |r| == |ss| && forall k :: 0 <= k < |ss| ==> r[k] == JString(ss[k])
  {
    if ss == [] then [] else StringsJson(ss[..|ss| - 1]) + [JString(ss[|ss| - 1])]
  }

  function SentimentName(s: Sentiment): string
  {
    match s
    case Positive => "positive"
    case Neutral => "neutral"
    case Negative => "negative"
  }

  function EngagementName(e: Engagement): string
  {
    match e
    case EngagementHigh => "high"
    case EngagementMedium => "medium"
    case EngagementLow => "low"
  }

  function AnalysisJson(a: Analysis): Json
  {
    JObject(map[
      "customer_concern" := OptStringJson(a.customerConcern),
      "sales_rep_approach" := OptStringJson(a.salesRepApproach),
      "conversation_stage" := JString(StageName(a.stage)),
      "key_topics" := JArray(StringsJson(a.keyTopics)),
      "customer_sentiment" := (match a.sentiment case None => JNull case Some(s) => JString(SentimentName(s))),
      "engagement_level" := (match a.engagement case None => JNull case Some(e) => JString(EngagementName(e)))])
  }

  function AdviceJson(a: Advice): Json
  {
    JObject(map[
      "priority" := JString(PriorityName(a.priority)),
      "category" := JString(CategoryName(a.category)),
      "insight" := JString(a.insight),
      "suggested_action" := JString(a.suggestedAction),
      "example_phrase" := OptStringJson(a.examplePhrase),
      "timing" := OptStringJson(a.timing)])
  }

  /** The JSON the prompt asks the model for, filled in from a response. */
  function ResponseJson(r: CoachingResponse): Json
  {
    JObject(map["analysis" := AnalysisJson(r.analysis), "primary_advice" := AdviceJson(r.primary), "confidence" := JNumber(r.confidence)])
  }

  lemma SentimentRoundTrip(s: Sentiment, e: Engagement)
    ensures SentimentOf(SentimentName(s)) == Some(s)
    ensures EngagementOf(EngagementName(e)) == Some(e)
  {
  }

  /** Looking up each key of the JSON an analysis is written as. */
  lemma AnalysisJsonLookups(a: Analysis)
    ensures var f := AnalysisJson(a).fields;
      && Get(f, "customer_concern") == Some(OptStringJson(a.customerConcern))
      && Get(f, "sales_rep_approach") == Some(OptStringJson(a.salesRepApproach))
      && Get(f, "conversation_stage") == Some(JString(StageName(a.stage)))
      && Get(f, "key_topics") == Some(JArray(StringsJson(a.keyTopics)))
      && Get(f, "customer_sentiment") == Some(match a.sentiment case None => JNull case Some(s) => JString(SentimentName(s)))
      && Get(f, "engagement_level") == Some(match a.engagement case None => JNull case Some(e) => JString(EngagementName(e)))
  {
  }

  /** Each field of the JSON an analysis is written as reads back as that field. */
  lemma AnalysisFieldsRoundTrip(a: Analysis)
    ensures var f := AnalysisJson(a).fields;
      && OptString(Get(f, "customer_concern")) == Parsed(a.customerConcern)
      && OptString(Get(f, "sales_rep_approach")) == Parsed(a.salesRepApproach)
      && ReqEnum(Get(f, "conversation_stage"), StageOf) == Parsed(a.stage)
      && Topics(Get(f, "key_topics")) == Parsed(a.keyTopics)
      && OptEnum(Get(f, "customer_sentiment"), SentimentOf) == Parsed(a.sentiment)
      && OptEnum(Get(f, "engagement_level"), EngagementOf) == Parsed(a.engagement)
  {
    AnalysisJsonLookups(a);
    AnalysisTextRoundTrip(a);
    AnalysisRatingsRoundTrip(a);
  }

  lemma AnalysisTextRoundTrip(a: Analysis)
    ensures OptString(Some(OptStringJson(a.customerConcern))) == Parsed(a.customerConcern)
    ensures OptString(Some(OptStringJson(a.salesRepApproach))) == Parsed(a.salesRepApproach)
    ensures ReqEnum(Some(JString(StageName(a.stage))), StageOf) == Parsed(a.stage)
    ensures Topics(Some(JArray(StringsJson(a.keyTopics)))) == Parsed(a.keyTopics)
  {
    StageFieldRoundTrip(a.stage);
    TopicsFieldRoundTrip(a.keyTopics);
  }

  lemma StageFieldRoundTrip(stage: Stage)
    ensures ReqEnum(Some(JString(StageName(stage))), StageOf) == Parsed(stage)
  {
    EnumNamesRoundTrip(stage, Questioning, High);
  }

  lemma TopicsFieldRoundTrip(topics: seq<string>)
    ensures Topics(Some(JArray(StringsJson(topics)))) == Parsed(topics)
  {
    StringsRoundTrip(topics);
  }

  lemma AnalysisRatingsRoundTrip(a: Analysis)
    ensures OptEnum(Some(match a.sentiment case None => JNull case Some(s) => JString(SentimentName(s))), SentimentOf) == Parsed(a.sentiment)
    ensures OptEnum(Some(match a.engagement case None => JNull case Some(e) => JString(EngagementName(e))), EngagementOf) == Parsed(a.engagement)
  {
    if a.sentiment.Some? {
      SentimentRoundTrip(a.sentiment.value, EngagementHigh);
    }
    if a.engagement.Some? {
      SentimentRoundTrip(Positive, a.engagement.value);
    }
  }

  lemma AnalysisRoundTrip(a: Analysis)
    ensures AnalysisFrom(AnalysisJson(a)) == Parsed(a)
  {
    AnalysisFieldsRoundTrip(a);
  }

  lemma {:induction false} StringsRoundTrip(ss: seq<string>)
    ensures Strings(StringsJson(ss)) == Some(ss)
  {
    if ss != [] {
      var init := ss[..|ss| - 1];
      StringsRoundTrip(init);
      assert StringsJson(ss)[..|ss| - 1] == StringsJson(init);
      assert ss == init + [ss[|ss| - 1]];
    }
  }

  lemma AdviceRoundTrip(a: Advice)
    ensures AdviceFrom(AdviceJson(a)) == Parsed(a)
  {
    EnumNamesRoundTrip(Discovery, a.category, a.priority);
  }

  /** A response with a valid confidence and no secondary advice reads back as itself from the JSON it is written as. */
  lemma ResponseRoundTrip(r: CoachingResponse)
    requires UnitInterval(r.confidence) && r.secondary.None?
    ensures ResponseFrom(ResponseJson(r), r.contextWindow, r.generatedAt) == Parsed(r)
  {
    AnalysisRoundTrip(r.analysis);
    AdviceRoundTrip(r.primary);
  }

  /**
   * The text round trip: a reply that, once stripped, is a "{...}" text holding no "```" is
   * handed to the decoder whole, so when it decodes to the JSON a response is written as, the
   * reply parses back to that response.
   */
  lemma BracedReplyRoundTrip(text: string, r: CoachingResponse, decode: string -> Option<Json>)
    requires UnitInterval(r.confidence) && r.secondary.None?
    requires Text.Strip(text) != [] && Text.Strip(text)[0] == '{' && Text.Strip(text)[|Text.Strip(text)| - 1] == '}'
    requires !Text.Contains(Text.Strip(text), Fence)
    requires decode(Text.Strip(text)) == Some(ResponseJson(r))
    ensures ParseCoachingResponse(text, r.contextWindow, decode, r.generatedAt) == Parsed(r)
  {
    BracedExtract(text);
    ResponseRoundTrip(r);
  }

  /** A reply that strips to a fence-free text from '{' to '}' hands all of that text to the decoder. */
  lemma BracedExtract(text: string)
    requires Text.Strip(text) != [] && Text.Strip(text)[0] == '{' && Text.Strip(text)[|Text.Strip(text)| - 1] == '}'
    requires !Text.Contains(Text.Strip(text), Fence)
    ensures ExtractJson(text) == Some(Text.Strip(text))
  {
    var body := Text.Strip(text);
    BracesWithoutFence(body);
    Text.FindChar(body, '{');
    assert body[0..|body|] == body;
    assert Extract(body) == body;
    Text.StripIdempotent(text);
  }

  // ---------------------------------------------------------------------------
  // Analysis and its trigger
  // ---------------------------------------------------------------------------

  /** `_analyze_conversation`: nothing unless the model is loaded and there are turns; any failure gives nothing. */
  function AnalyzeConversation(isLoaded: bool, turns: seq<Turn>, llm: LlmCall, decode: string -> Option<Json>, now: real): (r: Option<CoachingResponse>)
    ensures r.Some? ==> isLoaded && turns != [] && llm.Generated?
    ensures r.Some? ==> r.value.contextWindow == |turns| && r.value.generatedAt == now && UnitInterval(r.value.confidence)
    ensures r.Some? ==> ParseCoachingResponse(Text.Strip(llm.text), |turns|, decode, now) == Parsed(r.value)
  {
    if !isLoaded || turns == [] then None
    else match llm
      case LlmRaised => None
      case Generated(text) =>
        match ParseCoachingResponse(Text.Strip(text), |turns|, decode, now)
        case Parsed(response) => Some(response)
        case _ => None
  }

  /** Stripping the model's text before parsing changes nothing, since parsing strips it again. */
  lemma StripBeforeParse(text: string, contextWindow: int, decode: string -> Option<Json>, now: real)
    ensures ParseCoachingResponse(Text.Strip(text), contextWindow, decode, now) == ParseCoachingResponse(text, contextWindow, decode, now)
  {
    ExtractAfterStrip(text);
  }

  lemma ExtractAfterStrip(text: string)
    ensures ExtractJson(Text.Strip(text)) == ExtractJson(text)
  {
    Text.StripIdempotent(text);
  }

  /** When the last advice was generated, if there is any. */
  function LastCoachingTime(recent: seq<CoachingResponse>): Option<real>
  {
    if recent == [] then None else Some(recent[|recent| - 1].generatedAt)
  }

  /** `_should_analyze_conversation`: enough turns, and no advice yet or the interval has passed since the last one. */
  predicate ShouldAnalyze(turnCount: nat, last: Option<real>, now: real, minTurns: int, interval: real)
  {
    turnCount >= minTurns && (last.None? || now - last.value >= interval)
  }

  /** Once the trigger holds, it keeps holding as time passes and turns arrive. */
  lemma TriggerMonotone(turnCount: nat, more: nat, last: Option<real>, now: real, later: real, minTurns: int, interval: real)
    requires ShouldAnalyze(turnCount, last, now, minTurns, interval) && now <= later && turnCount <= more
    ensures ShouldAnalyze(more, last, later, minTurns, interval)
  {
  }

  /** A request waiting for analysis: the turns to analyse and when it was queued. */
  datatype AnalysisRequest = AnalysisRequest(turns: seq<Turn>, timestamp: real)

  class SalesCoachLlm {
    /** `coaching_config.min_transcript_length`, `.coaching_interval` and `.conversation_context_window`. */
    const minTranscriptLength: int
    const coachingInterval: real
    const contextWindow: int
    const state: ConversationState
    var isLoaded: bool
    var analysisQueue: seq<AnalysisRequest>
    var isAnalyzing: bool

    ghost predicate Valid()
      reads this, state
    {
      state.Valid()
    }

    constructor (minTranscriptLength: int, coachingInterval: real, contextWindow: int, loaded: bool, sessionId: string, now: real)
      ensures Valid() && fresh(state)
      ensures this.minTranscriptLength == minTranscriptLength && this.coachingInterval == coachingInterval && this.contextWindow == contextWindow
      ensures isLoaded == loaded && analysisQueue == [] && !isAnalyzing && state.turns == [] && state.recentCoaching == []
    {
      this.minTranscriptLength := minTranscriptLength;
      this.coachingInterval := coachingInterval;
      this.contextWindow := contextWindow;
      state := new ConversationState(sessionId, now);
      isLoaded := loaded;
      analysisQueue := [];
      isAnalyzing := false;
    }

    /** The trigger on the current state at time `now`. */
    predicate Triggered(now: real)
      reads this, state
    {
      ShouldAnalyze(|state.turns|, LastCoachingTime(state.recentCoaching), now, minTranscriptLength, coachingInterval)
    }

    /** `add_conversation_turn`: record the turn, then queue one analysis iff the trigger holds. */
    method AddConversationTurn(turn: Turn, now: real)
      requires Valid()
      modifies state, this
      ensures Valid()
      ensures state.turns == old(state.turns) + [turn] && state.recentCoaching == old(state.recentCoaching)
      ensures Triggered(now) ==> analysisQueue == old(analysisQueue) + [AnalysisRequest(state.RecentTurns(contextWindow), now)] && isAnalyzing
      ensures !Triggered(now) ==> analysisQueue == old(analysisQueue) && isAnalyzing == old(isAnalyzing)
      ensures isLoaded == old(isLoaded)
    {
      state.AddTurn(turn);
      if ShouldAnalyze(|state.turns|, LastCoachingTime(state.recentCoaching), now, minTranscriptLength, coachingInterval) {
        QueueAnalysis(now);
      }
    }

    /** `_queue_analysis`: append a request for the recent window and make sure the worker runs. */
    method QueueAnalysis(now: real)
      modifies this
      ensures analysisQueue == old(analysisQueue) + [AnalysisRequest(state.RecentTurns(contextWindow), now)]
      ensures isAnalyzing && isLoaded == old(isLoaded)
    {
      analysisQueue := analysisQueue + [AnalysisRequest(state.RecentTurns(contextWindow), now)];
      if !isAnalyzing {
        StartAnalysis();
      }
    }

    /** `start_analysis`. */
    method StartAnalysis()
      modifies this
      ensures isAnalyzing && analysisQueue == old(analysisQueue) && isLoaded == old(isLoaded)
    {
      if isAnalyzing {
        return;
      }
      isAnalyzing := true;
    }

    /** `stop_analysis`: the queue is left as it is. */
    method StopAnalysis()
      modifies this
      ensures !isAnalyzing && analysisQueue == old(analysisQueue) && isLoaded == old(isLoaded)
    {
      if !isAnalyzing {
        return;
      }
      isAnalyzing := false;
    }

    /**
     * One pass of `_analysis_worker`: analyse the oldest request; a response joins the
     * recent coaching and is returned for the coaching callback.
     */
    method WorkerStep(llm: LlmCall, decode: string -> Option<Json>, now: real) returns (response: Option<CoachingResponse>)
      requires Valid()
      modifies this, state
      ensures Valid()
      ensures old(analysisQueue) == [] ==> response.None? && analysisQueue == [] && state.recentCoaching == old(state.recentCoaching)
      ensures old(analysisQueue) != [] ==>
        analysisQueue == old(analysisQueue)[1..] && response == AnalyzeConversation(isLoaded, old(analysisQueue)[0].turns, llm, decode, now)
      ensures response.Some? ==> state.recentCoaching == LastN(old(state.recentCoaching) + [response.value], MaxRecentCoaching)
      ensures response.None? ==> state.recentCoaching == old(state.recentCoaching)
      ensures state.turns == old(state.turns) && isLoaded == old(isLoaded) && isAnalyzing == old(isAnalyzing)
    {
      if analysisQueue == [] {
        return None;
      }
      var request := analysisQueue[0];
      analysisQueue := analysisQueue[1..];
      response := AnalyzeConversation(isLoaded, request.turns, llm, decode, now);
      if response.Some? {
        state.AddCoaching(response.value);
      }
    }

    /** `force_analysis`: analyse the recent window now, whatever the trigger says, without recording the result. */
    method ForceAnalysis(llm: LlmCall, decode: string -> Option<Json>, now: real) returns (response: Option<CoachingResponse>)
      ensures state.turns == [] ==> response.None?
      ensures state.turns != [] ==> response == AnalyzeConversation(isLoaded, state.RecentTurns(contextWindow), llm, decode, now)
    {
      if state.turns == [] {
        return None;
      }
      response := AnalyzeConversation(isLoaded, state.RecentTurns(contextWindow), llm, decode, now);
    }
  }

  /** A forced analysis of a non-empty conversation looks at between one and `window` of the latest turns. */
  lemma ForcedWindow(turns: seq<Turn>, window: int)
    requires turns != [] && window >= 0
    ensures var w := RecentItems(turns, window);
      w != [] && w == turns[|turns| - |w|..] && (0 < window ==> |w| <= window)
  {
  }
}
