/** The OpenAI client's post-processing: the reply content is parsed as JSON
    with `'{}'` standing in for empty or absent content, normalised as in the
    Gemini client, and every failure is replaced by one fixed error per call. */
module OpenAi {
  import opened Wrappers
  import opened JsValues
  import opened AiResults

  /** The outcome of one chat-completion request: the call threw, or it
      returned `choices[0].message.content`, which may be null. */
  datatype Completion = Failed | Content(content: Option<string>)

  const EmptyObject: string := "{}"

  /** `JSON.parse(content || '{}')`. */
  function ParsedContent<R>(c: Completion, parse: string -> Option<R>): (r: Option<R>)
    ensures c.Failed? ==> r.None?
    ensures c.Content? && !Truthy(c.content) ==> r == parse(EmptyObject)
    ensures c.Content? && Truthy(c.content) ==> r == parse(c.content.value)
  {
    if c.Failed? then None else parse(OrElse(c.content, EmptyObject))
  }

  /** `analyzeJobAndOptimizeResume`. */
  function AnalyzeJob(input: AnalysisInput, c: Completion, parse: string -> Option<AnalysisReply>)
    : (r: Result<JobAnalysis, string>)
    ensures r.Err? ==> r.error == AnalyzeError
    ensures r.Ok? <==> ParsedContent(c, parse).Some?
    ensures r.Ok? ==> r.value == NormalizeAnalysis(ParsedContent(c, parse).value, input)
                      && 0 <= r.value.matchScore <= 100
  {
    match ParsedContent(c, parse)
    case None => Err(AnalyzeError)
    case Some(reply) => Ok(NormalizeAnalysis(reply, input))
  }

  /** Empty or null content is read as `{}`, so every default applies. */
  lemma EmptyContentAnalysisDefaults(input: AnalysisInput, content: Option<string>,
                                     parse: string -> Option<AnalysisReply>)
    requires parse(EmptyObject) == Some(EmptyAnalysisReply)
    requires !Truthy(content)
    ensures AnalyzeJob(input, Content(content), parse)
         == Ok(JobAnalysis(0, OrElse(input.summary, ""), input.experience, [], DefaultFeedback))
  {
    EmptyAnalysisDefaults(input);
  }

  /** `generateCoverLetter`: `content || ''`; only a failed call is an error. */
  function GenerateCoverLetter(c: Completion): (r: Result<string, string>)
    ensures c.Failed? <==> r == Err(CoverLetterError)
    ensures c.Content? && Truthy(c.content) ==> r == Ok(c.content.value)
    ensures c.Content? && !Truthy(c.content) ==> r == Ok("")
  {
    if c.Failed? then Err(CoverLetterError) else Ok(OrElse(c.content, ""))
  }

  /** `generateResumeInsights`. */
  function GenerateInsights(c: Completion, parse: string -> Option<InsightsReply>)
    : (r: Result<Insights, string>)
    ensures r.Err? ==> r.error == InsightsError
    ensures r.Ok? <==> ParsedContent(c, parse).Some?
    ensures r.Ok? ==> r.value == NormalizeInsights(ParsedContent(c, parse).value)
  {
    match ParsedContent(c, parse)
    case None => Err(InsightsError)
    case Some(reply) => Ok(NormalizeInsights(reply))
  }

  lemma EmptyContentInsightsDefaults(content: Option<string>, parse: string -> Option<InsightsReply>)
    requires parse(EmptyObject) == Some(EmptyInsightsReply)
    requires !Truthy(content)
    ensures GenerateInsights(Content(content), parse)
         == Ok(Insights(DefaultStrengths, DefaultWeaknesses, [], DefaultOverall))
  { }
}
