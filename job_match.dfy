/** The job-match endpoint (app/api/job-match/route.ts): a canned, score-banded
    analysis when no API key is configured, and otherwise the JSON object cut
    out of the upstream model's reply, with every failure mapped to one error
    response. */
module JobMatch {
  import opened Wrappers

  // ---------------------------------------------------------------------------
  // The request

  /** The part of the posted body the endpoint reads outside the prompt text.
      `overallScore` is an integer, as the results page sends it. */
  datatype JobMatchRequest = JobMatchRequest(
    jobDescription: string,
    overallScore: int,
    strengths: seq<string>,
    weaknesses: seq<string>)

  // ---------------------------------------------------------------------------
  // The canned analysis

  datatype MatchLevel = High | Medium | Low | NotReady

  /** Higher is a better match. */
  function MatchRank(l: MatchLevel): nat {
    match l
    case NotReady => 0
    case Low => 1
    case Medium => 2
    case High => 3
  }

  /** The match-level ladder on the overall score: 75, 55 and 40 are the cut-offs. */
  function MatchLevelOf(score: int): (l: MatchLevel)
    ensures l == High <==> score >= 75
    ensures l == Medium <==> 55 <= score < 75
    ensures l == Low <==> 40 <= score < 55
    ensures l == NotReady <==> score < 40
  {
    if score >= 75 then High
    else if score >= 55 then Medium
    else if score >= 40 then Low
    else NotReady
  }

  /** A better score never gives a worse match level. */
  lemma MatchLevelMonotone(s1: int, s2: int)
    requires s1 <= s2
    ensures MatchRank(MatchLevelOf(s1)) <= MatchRank(MatchLevelOf(s2))
  {
  }

  function MatchDescription(l: MatchLevel): string {
    match l
    case High => "求人の英語要件を十分に満たしていると判断されます。"
    case Medium => "基本的な要件は満たしていますが、一部補強が必要です。"
    case Low => "現時点では要件を満たすのが難しい可能性があります。"
    case NotReady => "英語力の基礎固めが必要です。"
  }

  const HighRange := "750-850点相当"
  const MediumRange := "600-700点相当"
  const LowRange := "500-600点相当"
  const RequiredToeic := "700点以上（推定）"

  /** The estimated TOEIC range: three bands on the overall score. */
  function ToeicRange(score: int): string {
    if score >= 75 then HighRange else if score >= 55 then MediumRange else LowRange
  }

  /** The range that goes with each match level; low and not ready share one. */
  function RangeOfLevel(l: MatchLevel): string {
    match l
    case High => HighRange
    case Medium => MediumRange
    case Low => LowRange
    case NotReady => LowRange
  }

  /** The range always agrees with the match level, and the two bottom levels
      cannot be told apart by it. */
  lemma ToeicRangeOfLevel(score: int)
    ensures ToeicRange(score) == RangeOfLevel(MatchLevelOf(score))
    ensures ToeicRange(score) == LowRange <==> MatchLevelOf(score) == Low || MatchLevelOf(score) == NotReady
  {
    assert HighRange[0] == '7' && MediumRange[0] == '6' && LowRange[0] == '5';
  }

  /** `xs.slice(0, 3)`. */
  function Take3(xs: seq<string>): (r: seq<string>)
    ensures |r| == if |xs| < 3 then |xs| else 3
    ensures r == xs[..|r|]
  {
    if |xs| < 3 then xs else xs[..3]
  }

  /** `xs[0] || fallback`: the first entry unless the list is empty or that entry
      is the (falsy) empty string. */
  function FirstOr(xs: seq<string>, fallback: string): (r: string)
    ensures |xs| > 0 && xs[0] != "" ==> r == xs[0]
    ensures |xs| == 0 || xs[0] == "" ==> r == fallback
  {
    if |xs| > 0 && xs[0] != "" then xs[0] else fallback
  }

  const WeaknessFallback := "ビジネス英語"
  const StrengthFallback := "あなたの強み"
  const AdviceMiddle := "の強化に取り組みながら、並行して応募を検討することをお勧めします。面接では"
  const AdviceEnd := "をアピールしましょう。"

  /** The advice sentence around the first weakness and the first strength. */
  function Advice(strengths: seq<string>, weaknesses: seq<string>): string {
    FirstOr(weaknesses, WeaknessFallback) + AdviceMiddle + FirstOr(strengths, StrengthFallback) + AdviceEnd
  }

  /** The canned analysis object. */
  datatype MockResult = MockResult(
    matchLevel: MatchLevel,
    matchDescription: string,
    matchingPoints: seq<string>,
    gapPoints: seq<string>,
    advice: string,
    estimatedToeicRange: string,
    requiredToeicEstimate: string)

  /** `generateMockResponse`. */
  function MockResponse(req: JobMatchRequest): (m: MockResult)
    ensures m.matchLevel == MatchLevelOf(req.overallScore)
    ensures m.requiredToeicEstimate == RequiredToeic
  {
    var level := MatchLevelOf(req.overallScore);
    MockResult(level, MatchDescription(level),
      Take3(req.strengths), Take3(req.weaknesses),
      Advice(req.strengths, req.weaknesses),
      ToeicRange(req.overallScore), RequiredToeic)
  }

  /** The canned analysis depends on the score and the two lists only: the points
      are the first (up to) three strengths and weaknesses in order, the advice
      opens with the first weakness (or its fallback) and names the first strength
      (or its fallback), and the range agrees with the match level. */
  lemma MockFacts(req: JobMatchRequest)
    ensures var m := MockResponse(req);
      |m.matchingPoints| == (if |req.strengths| < 3 then |req.strengths| else 3)
      && (forall i :: 0 <= i < |m.matchingPoints| ==> m.matchingPoints[i] == req.strengths[i])
      && |m.gapPoints| == (if |req.weaknesses| < 3 then |req.weaknesses| else 3)
      && (forall i :: 0 <= i < |m.gapPoints| ==> m.gapPoints[i] == req.weaknesses[i])
    ensures var m := MockResponse(req); var w := FirstOr(req.weaknesses, WeaknessFallback);
      m.advice[..|w|] == w
      && m.advice[|w| + |AdviceMiddle|..|m.advice| - |AdviceEnd|] == FirstOr(req.strengths, StrengthFallback)
    ensures MockResponse(req).estimatedToeicRange == RangeOfLevel(MockResponse(req).matchLevel)
    ensures forall other: JobMatchRequest ::
      other.overallScore == req.overallScore && other.strengths == req.strengths && other.weaknesses == req.weaknesses
      ==> MockResponse(other) == MockResponse(req)
  {
    var w := FirstOr(req.weaknesses, WeaknessFallback);
    var s := FirstOr(req.strengths, StrengthFallback);
    var a := Advice(req.strengths, req.weaknesses);
    assert a == w + AdviceMiddle + s + AdviceEnd;
    assert a[..|w|] == w;
    assert a[|w| + |AdviceMiddle|..|a| - |AdviceEnd|] == s;
    ToeicRangeOfLevel(req.overallScore);
  }

  // ---------------------------------------------------------------------------
  // Which path is taken

  const PlaceholderKey := "your_api_key_here"

  /** `!apiKey || apiKey === 'your_api_key_here'`: an unset key, the (falsy) empty
      key and the placeholder all select the canned analysis. */
  predicate UseMock(apiKey: Option<string>) {
    apiKey.None? || apiKey.value == "" || apiKey.value == PlaceholderKey
  }

  // ---------------------------------------------------------------------------
  // Cutting the JSON object out of the reply

  /** The first position of `c` in `s`. */
  function FirstIndex(s: string, c: char): (r: Option<nat>)
    ensures r.None? <==> c !in s
    ensures r.Some? ==> r.value < |s| && s[r.value] == c && c !in s[..r.value]
  {
    if |s| == 0 then None
    else if s[0] == c then Some(0)
    else
      var r := FirstIndex(s[1..], c);
      if r.None? then None
      else
        assert s[..r.value + 1] == [s[0]] + s[1..][..r.value];
        Some(r.value + 1)
  }

  /** The last position of `c` in `s`. */
  function LastIndex(s: string, c: char): (r: Option<nat>)
    ensures r.None? <==> c !in s
    ensures r.Some? ==> r.value < |s| && s[r.value] == c && c !in s[r.value + 1..]
  {
    if |s| == 0 then None
    else if s[|s| - 1] == c then Some(|s| - 1)
    else
      var r := LastIndex(s[..|s| - 1], c);
      if r.None? then None
      else
        assert s[r.value + 1..] == s[..|s| - 1][r.value + 1..] + [s[|s| - 1]];
        Some(r.value)
  }

  /** `text.match(/\{[\s\S]*\}/)`: the greedy match runs from the first `{` to the
      last `}` after it. */
  function Extract(text: string): Option<string> {
    match FirstIndex(text, '{')
    case None => None
    case Some(i) =>
      match LastIndex(text, '}')
      case None => None
      case Some(j) => if i < j then Some(text[i..j + 1]) else None
  }

  /** The match exists exactly when some `{` is followed later by a `}`; it then
      opens with `{`, closes with `}`, and nothing before it is a `{` and nothing
      after it a `}`. */
  lemma ExtractIff(text: string)
    ensures Extract(text).Some? <==>
      exists i, j :: 0 <= i < j < |text| && text[i] == '{' && text[j] == '}'
    ensures Extract(text).Some? ==>
      exists i, j :: 0 <= i < j < |text| && Extract(text).value == text[i..j + 1]
        && text[i] == '{' && text[j] == '}' && '{' !in text[..i] && '}' !in text[j + 1..]
  {
    if exists i, j :: 0 <= i < j < |text| && text[i] == '{' && text[j] == '}' {
      var i, j :| 0 <= i < j < |text| && text[i] == '{' && text[j] == '}';
      var f := FirstIndex(text, '{');
      var l := LastIndex(text, '}');
      assert text[i] in text && text[j] in text;
    }
  }

  /** A JSON object wrapped in chatter without braces on its outer sides is cut
      out again exactly. */
  lemma ExtractWrapped(before: string, json: string, after: string)
    requires '{' !in before && '}' !in after
    requires |json| >= 2 && json[0] == '{' && json[|json| - 1] == '}'
    ensures Extract(before + json + after) == Some(json)
  {
    var text := before + json + after;
    var i := |before|;
    var j := |before| + |json| - 1;
    assert text[i] == '{' && text[j] == '}';
    ExtractIff(text);
    var p, q :| 0 <= p < q < |text| && Extract(text).value == text[p..q + 1]
      && text[p] == '{' && text[q] == '}' && '{' !in text[..p] && '}' !in text[q + 1..];
    assert text[i..j + 1] == json;
  }

  // ---------------------------------------------------------------------------
  // The endpoint

  /** What the upstream call came back with: whether it succeeded, and the reply
      text when the reply could be read (a rejected call counts as failed). */
  datatype Reply = Reply(ok: bool, text: Option<string>)

  /** Where the analysis came from. */
  datatype Analysis<J> = Canned(mock: MockResult) | Upstream(json: J)

  /** The JSON body and the status of the response. */
  datatype Response<J> =
    | Success(result: Analysis<J>)
    | Failure(status: nat, error: string)

  const ErrorText := "Failed to analyze job match"

  /** The single error response every failure maps to. */
  function Error<J>(): (r: Response<J>)
    ensures r.Failure? && r.status == 500 && r.error == ErrorText
  {
    Failure(500, ErrorText)
  }

  /** `POST`. The body is `None` when `request.json()` throws, and also when the
      JSON lacks a field that the prompt or the mock reads (`userProfile`, its
      `skillScores` or `interviewReadiness`, or `strengths`/`weaknesses` that are
      not arrays): the prompt is built before the key is looked at, so such a body
      fails even without a key. The upstream reply and `JSON.parse` are inputs
      (`parse` answers `None` when it would throw). */
  function Post<J>(body: Option<JobMatchRequest>, apiKey: Option<string>, reply: Reply, parse: string -> Option<J>): Response<J> {
    if body.None? then Error()
    else if UseMock(apiKey) then Success(Canned(MockResponse(body.value)))
    else if !reply.ok || reply.text.None? then Error()
    else
      match Extract(reply.text.value)
      case None => Error()
      case Some(json) =>
        match parse(json)
        case None => Error()
        case Some(analysis) => Success(Upstream(analysis))
  }

  /** For a body carrying the request's fields the canned analysis is answered
      exactly when the key selects it, whatever the upstream call would have done;
      it always succeeds. */
  lemma PostMockIff<J>(req: JobMatchRequest, apiKey: Option<string>, reply: Reply, parse: string -> Option<J>)
    ensures Post(Some(req), apiKey, reply, parse).Success? && Post(Some(req), apiKey, reply, parse).result.Canned?
      <==> UseMock(apiKey)
    ensures UseMock(apiKey) ==> Post(Some(req), apiKey, reply, parse) == Success(Canned(MockResponse(req)))
  {
  }

  /** Every failure is the one status-500 error, and a body lacking the request's
      fields always fails. For a body carrying them, a real key fails exactly on a
      failed call, no reply text, no braces to cut out, or a cut-out that does not
      parse, and otherwise answers the parsed cut-out. */
  lemma PostOutcomes<J>(body: Option<JobMatchRequest>, apiKey: Option<string>, reply: Reply, parse: string -> Option<J>)
    ensures Post(body, apiKey, reply, parse).Failure? ==>
      Post(body, apiKey, reply, parse) == Failure(500, ErrorText)
    ensures body.Some? && !UseMock(apiKey) ==>
      (Post(body, apiKey, reply, parse).Failure? <==>
        !reply.ok || reply.text.None? || Extract(reply.text.value).None? || parse(Extract(reply.text.value).value).None?)
    ensures body.Some? && !UseMock(apiKey) && Post(body, apiKey, reply, parse).Success? ==>
      Post(body, apiKey, reply, parse) == Success(Upstream(parse(Extract(reply.text.value).value).value))
    ensures body.None? ==> Post(body, apiKey, reply, parse).Failure?
  {
  }
}
