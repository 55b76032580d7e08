/** The key names of the analysis result: the schema the prompt asks the
    model to fill in, and the keys the report presenter reads back. */
module ResultKeys {

  const Language := "language"
  const DomainScores := "domain_scores"
  const CompetencyScores := "competency_scores"
  const StrategicInsights := "strategic_insights"
  const DevelopmentRecommendations := "development_recommendations"
  const ComparativeBenchmarking := "comparative_benchmarking"
  const OverallSummary := "overall_summary"

  // keys of one entry of domain_scores
  const Domain := "domain"
  const Score := "score"
  const Justification := "justification"

  // keys of one entry of competency_scores
  const Category := "category"
  const Strength := "strength"
  const Observation := "observation"

  // keys of overall_summary
  const OverallScore := "overall_score"
  const KeyStrengths := "key_strengths"
  const AreasToImprove := "areas_to_improve"
  const TalentPotential := "talent_potential"

  const TopLevel: seq<string> :=
    [Language, DomainScores, CompetencyScores, StrategicInsights,
     DevelopmentRecommendations, ComparativeBenchmarking, OverallSummary]
  const DomainEntry: seq<string> := [Domain, Score, Justification]
  const CompetencyEntry: seq<string> := [Category, Score, Strength, Observation]
  const SummaryEntry: seq<string> := [OverallScore, KeyStrengths, AreasToImprove, TalentPotential]

  /** Every key name the presenter reads, at any nesting level. */
  const All: seq<string> := TopLevel + DomainEntry + CompetencyEntry + SummaryEntry
}
