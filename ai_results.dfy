/** Post-processing shared by both AI providers: the parsed model reply is a
    record whose fields may be missing, and each field is replaced by a
    fallback when it is falsy; scores are clamped into [0, 100]. */
module AiResults {
  import opened Wrappers
  import opened JsValues
  import opened Schema

  const AnalyzeError: string := "Failed to analyze job description and optimize resume"
  const CoverLetterError: string := "Failed to generate cover letter"
  const InsightsError: string := "Failed to generate resume insights"
  const DefaultFeedback: string := "Analysis completed successfully."

  const DefaultMatchScore: int := 0
  const DefaultStrengths: int := 75
  const DefaultWeaknesses: int := 25
  const DefaultOverall: int := 75

  /** What the resume analysis reads from its input beyond the prompt:
      the optional top-level `summary` and the experience list. */
  datatype AnalysisInput = AnalysisInput(summary: Option<string>, experience: seq<Experience>)

  /** The parsed JSON reply of the analysis request; None = key absent or null. */
  datatype AnalysisReply = AnalysisReply(
    matchScore: Option<int>, enhancedSummary: Option<string>,
    optimizedExperience: Option<seq<Experience>>, suggestedSkills: Option<seq<string>>,
    feedback: Option<string>)

  datatype JobAnalysis = JobAnalysis(
    matchScore: int, enhancedSummary: string, optimizedExperience: seq<Experience>,
    suggestedSkills: seq<string>, feedback: string)

  datatype InsightsReply = InsightsReply(
    strengthsScore: Option<int>, weaknessesScore: Option<int>,
    suggestions: Option<seq<string>>, overallRating: Option<int>)

  datatype Insights = Insights(
    strengthsScore: int, weaknessesScore: int, suggestions: seq<string>, overallRating: int)

  const EmptyAnalysisReply: AnalysisReply := AnalysisReply(None, None, None, None, None)
  const EmptyInsightsReply: InsightsReply := InsightsReply(None, None, None, None)

  /** `Math.max(0, Math.min(100, v || fallback))`. */
  function ClampScore(v: Option<int>, fallback: int): (r: int)
    ensures 0 <= r <= 100
    ensures TruthyNumber(v) && 0 <= v.value <= 100 ==> r == v.value
    ensures TruthyNumber(v) && v.value > 100 ==> r == 100
    ensures TruthyNumber(v) && v.value < 0 ==> r == 0
    ensures !TruthyNumber(v) && 0 <= fallback <= 100 ==> r == fallback
  {
    var x := if TruthyNumber(v) then v.value else fallback;
    if x > 100 then 100 else if x < 0 then 0 else x
  }

  /** An array value is truthy even when empty, so only an absent value falls back. */
  function ListOr<T>(v: Option<seq<T>>, fallback: seq<T>): seq<T> {
    if v.Some? then v.value else fallback
  }

  function NormalizeAnalysis(reply: AnalysisReply, input: AnalysisInput): (r: JobAnalysis)
    ensures 0 <= r.matchScore <= 100 && r.matchScore == ClampScore(reply.matchScore, DefaultMatchScore)
    ensures !TruthyNumber(reply.matchScore) ==> r.matchScore == 0
    ensures Truthy(reply.enhancedSummary) ==> r.enhancedSummary == reply.enhancedSummary.value
    ensures !Truthy(reply.enhancedSummary) ==> r.enhancedSummary == OrElse(input.summary, "")
    ensures r.optimizedExperience == if reply.optimizedExperience.Some? then reply.optimizedExperience.value
                                     else input.experience
    ensures r.suggestedSkills == if reply.suggestedSkills.Some? then reply.suggestedSkills.value else []
    ensures Truthy(reply.feedback) ==> r.feedback == reply.feedback.value
    ensures !Truthy(reply.feedback) ==> r.feedback == DefaultFeedback
    ensures r.feedback != ""
  {
    JobAnalysis(
      ClampScore(reply.matchScore, DefaultMatchScore),
      OrElse(Or(reply.enhancedSummary, input.summary), ""),
      ListOr(reply.optimizedExperience, input.experience),
      ListOr(reply.suggestedSkills, []),
      OrElse(reply.feedback, DefaultFeedback))
  }

  function NormalizeInsights(reply: InsightsReply): (r: Insights)
    ensures 0 <= r.strengthsScore <= 100 && 0 <= r.weaknessesScore <= 100 && 0 <= r.overallRating <= 100
    ensures r.strengthsScore == ClampScore(reply.strengthsScore, DefaultStrengths)
    ensures r.weaknessesScore == ClampScore(reply.weaknessesScore, DefaultWeaknesses)
    ensures r.overallRating == ClampScore(reply.overallRating, DefaultOverall)
    ensures !TruthyNumber(reply.strengthsScore) ==> r.strengthsScore == DefaultStrengths
    ensures !TruthyNumber(reply.weaknessesScore) ==> r.weaknessesScore == DefaultWeaknesses
    ensures !TruthyNumber(reply.overallRating) ==> r.overallRating == DefaultOverall
    ensures r.suggestions == if reply.suggestions.Some? then reply.suggestions.value else []
  {
    Insights(
      ClampScore(reply.strengthsScore, DefaultStrengths),
      ClampScore(reply.weaknessesScore, DefaultWeaknesses),
      ListOr(reply.suggestions, []),
      ClampScore(reply.overallRating, DefaultOverall))
  }

  /** The reply a normalised result would come from if sent back unchanged. */
  function ReplyOfAnalysis(a: JobAnalysis): AnalysisReply {
    AnalysisReply(Some(a.matchScore), Some(a.enhancedSummary), Some(a.optimizedExperience),
                  Some(a.suggestedSkills), Some(a.feedback))
  }

  function ReplyOfInsights(i: Insights): InsightsReply {
    InsightsReply(Some(i.strengthsScore), Some(i.weaknessesScore), Some(i.suggestions),
                  Some(i.overallRating))
  }

  /** A reply with every field present, truthy and in range passes unchanged. */
  lemma WellFormedAnalysisKept(a: JobAnalysis, input: AnalysisInput)
    requires 0 < a.matchScore <= 100 && a.enhancedSummary != "" && a.feedback != ""
    ensures NormalizeAnalysis(ReplyOfAnalysis(a), input) == a
  { }

  /** Normalising a normalised result again (for the same input) changes nothing. */
  lemma NormalizeAnalysisIdempotent(reply: AnalysisReply, input: AnalysisInput)
    ensures var a := NormalizeAnalysis(reply, input);
            NormalizeAnalysis(ReplyOfAnalysis(a), input) == a
  {
    var a := NormalizeAnalysis(reply, input);
    if a.enhancedSummary == "" {
      assert !Truthy(reply.enhancedSummary) && !Truthy(input.summary);
    }
  }

  /** An empty reply yields every default. */
  lemma EmptyAnalysisDefaults(input: AnalysisInput)
    ensures NormalizeAnalysis(EmptyAnalysisReply, input)
         == JobAnalysis(0, OrElse(input.summary, ""), input.experience, [], DefaultFeedback)
  { }

  /** A provider score of 0 is falsy, so the insight defaults replace it. */
  lemma ZeroInsightScoresBecomeDefaults(suggestions: Option<seq<string>>)
    ensures NormalizeInsights(InsightsReply(Some(0), Some(0), suggestions, Some(0)))
         == Insights(DefaultStrengths, DefaultWeaknesses, ListOr(suggestions, []), DefaultOverall)
  { }

  /** Scores in (0, 100] and a present suggestion list pass unchanged. A
      score of 0 does not: it is falsy and becomes the default. */
  lemma WellFormedInsightsKept(i: Insights)
    requires 0 < i.strengthsScore <= 100 && 0 < i.weaknessesScore <= 100 && 0 < i.overallRating <= 100
    ensures NormalizeInsights(ReplyOfInsights(i)) == i
  { }
}
