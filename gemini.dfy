/** The Gemini client's post-processing: the JSON object is cut out of the
    model's free-text reply with the greedy pattern `\{[\s\S]*\}`, parsed,
    normalised, and every failure is replaced by one fixed error per call. */
module Gemini {
  import opened Wrappers
  import opened AiResults

  /** Index of the first occurrence of `c` in `s`, or -1. */
  function FirstIndexOf(s: string, c: char): (k: int)
    ensures -1 <= k < |s|
    ensures k >= 0 ==> s[k] == c && forall j :: 0 <= j < k ==> s[j] != c
    ensures k == -1 ==> forall j :: 0 <= j < |s| ==> s[j] != c
    decreases |s|
  {
    if s == [] then -1
    else if s[0] == c then 0
    else
      var k := FirstIndexOf(s[1..], c);
      if k < 0 then -1 else k + 1
  }

  /** Index of the last occurrence of `c` in `s`, or -1. */
  function LastIndexOf(s: string, c: char): (k: int)
    ensures -1 <= k < |s|
    ensures k >= 0 ==> s[k] == c && forall j :: k < j < |s| ==> s[j] != c
    ensures k == -1 ==> forall j :: 0 <= j < |s| ==> s[j] != c
    decreases |s|
  {
    if s == [] then -1
    else if s[|s| - 1] == c then |s| - 1
    else LastIndexOf(s[..|s| - 1], c)
  }

  predicate HasBracePair(text: string) {
    exists i, j :: 0 <= i < j < |text| && text[i] == '{' && text[j] == '}'
  }

  /** `text.match(/\{[\s\S]*\}/)`: the leftmost match starts at the first '{';
      being greedy, it ends at the last '}' of the text. */
  function ExtractJson(text: string): (r: Option<string>)
    ensures r.Some? <==> HasBracePair(text)
  {
    var i := FirstIndexOf(text, '{');
    var j := LastIndexOf(text, '}');
    if 0 <= i < j then Some(text[i..j + 1]) else None
  }

  /** The extracted span begins at the first '{' and ends at the last '}':
      nothing outside it is an opening brace before it or a closing brace after it. */
  lemma {:induction false} ExtractJsonSpan(text: string)
    requires HasBracePair(text)
    ensures var i := FirstIndexOf(text, '{');
            var j := LastIndexOf(text, '}');
            0 <= i < j < |text|
            && ExtractJson(text) == Some(text[i..j + 1])
            && text[i] == '{' && text[j] == '}'
            && (forall k :: 0 <= k < i ==> text[k] != '{')
            && (forall k :: j < k < |text| ==> text[k] != '}')
  {
    var a, b :| 0 <= a < b < |text| && text[a] == '{' && text[b] == '}';
    var i := FirstIndexOf(text, '{');
    var j := LastIndexOf(text, '}');
    assert i <= a && b <= j;
  }

  /** Greediness: the span runs to the last '}', so a reply holding two
      objects yields both together, not the first one alone. */
  lemma GreedySpansBothObjects()
    ensures ExtractJson("a{x}b{y}c") == Some("{x}b{y}")
  {
    var t := "a{x}b{y}c";
    assert t[1..][0] == '{';
    assert FirstIndexOf(t[1..], '{') == 0;
    assert FirstIndexOf(t, '{') == 1;
    assert t[..8][7] == '}';
    assert LastIndexOf(t[..8], '}') == 7;
    assert LastIndexOf(t, '}') == 7;
    assert t[1..8] == "{x}b{y}";
  }

  /** `analyzeJobAndOptimizeResume`. `reply` is the model's text (None when the
      call throws); `parse` is `JSON.parse` (None when it throws). */
  function AnalyzeJob(input: AnalysisInput, reply: Option<string>,
                      parse: string -> Option<AnalysisReply>): (r: Result<JobAnalysis, string>)
    ensures r.Err? ==> r.error == AnalyzeError
    ensures r.Ok? <==> reply.Some? && ExtractJson(reply.value).Some?
                       && parse(ExtractJson(reply.value).value).Some?
    ensures r.Ok? ==> r.value == NormalizeAnalysis(parse(ExtractJson(reply.value).value).value, input)
                      && 0 <= r.value.matchScore <= 100
  {
    if reply.None? then Err(AnalyzeError)
    else
      match ExtractJson(reply.value)
      case None => Err(AnalyzeError)
      case Some(json) =>
        match parse(json)
        case None => Err(AnalyzeError)
        case Some(parsed) => Ok(NormalizeAnalysis(parsed, input))
  }

  /** A reply with no '{' before a '}' fails with the wrapped message,
      whatever the parser. */
  lemma AnalyzeNeedsBraces(input: AnalysisInput, text: string, parse: string -> Option<AnalysisReply>)
    requires !HasBracePair(text)
    ensures AnalyzeJob(input, Some(text), parse) == Err(AnalyzeError)
  { }

  /** `generateCoverLetter`: the model's text verbatim, or the wrapped error. */
  function GenerateCoverLetter(reply: Option<string>): (r: Result<string, string>)
    ensures reply.Some? ==> r == Ok(reply.value)
    ensures reply.None? ==> r == Err(CoverLetterError)
  {
    if reply.Some? then Ok(reply.value) else Err(CoverLetterError)
  }

  /** `generateResumeInsights`. */
  function GenerateInsights(reply: Option<string>, parse: string -> Option<InsightsReply>)
    : (r: Result<Insights, string>)
    ensures r.Err? ==> r.error == InsightsError
    ensures r.Ok? <==> reply.Some? && ExtractJson(reply.value).Some?
                       && parse(ExtractJson(reply.value).value).Some?
    ensures r.Ok? ==> r.value == NormalizeInsights(parse(ExtractJson(reply.value).value).value)
  {
    if reply.None? then Err(InsightsError)
    else
      match ExtractJson(reply.value)
      case None => Err(InsightsError)
      case Some(json) =>
        match parse(json)
        case None => Err(InsightsError)
        case Some(parsed) => Ok(NormalizeInsights(parsed))
  }
}
